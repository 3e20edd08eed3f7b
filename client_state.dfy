/**
 * The client application's state (src/App.tsx): the sign-in flag, the
 * prediction history and the profile, mirrored into the browser's local
 * storage, and the handlers that change them.
 */
module ClientState {
  import opened Wrappers
  import opened Records

  /** A local-storage entry: the text "true", or the JSON text of a history or
      of a profile. Serializing and parsing are taken to round-trip exactly. */
  datatype Stored = Text(text: string) | PredictionList(records: seq<PredictionRecord>) | ProfileData(profile: UserProfile)

  const AuthEntry := "isAuthenticated"
  const PredictionsEntry := "predictions"
  const ProfileEntry := "profile"

  /** `localStorage.getItem(key)`: None stands for null. */
  function GetItem(storage: map<string, Stored>, key: string): (item: Option<Stored>)
    ensures item.Some? <==> key in storage
    ensures item.Some? ==> storage[key] == item.value
  {
    if key in storage then Some(storage[key]) else None
  }

  /** Whether the stored flag reads "true". */
  predicate StoredAuth(storage: map<string, Stored>) {
    GetItem(storage, AuthEntry) == Some(Text("true"))
  }

  /** The history saved under "predictions", if there is one. */
  function StoredPredictions(storage: map<string, Stored>): Option<seq<PredictionRecord>> {
    match GetItem(storage, PredictionsEntry)
    case Some(PredictionList(records)) => Some(records)
    case _ => None
  }

  /** The profile saved under "profile", if there is one. */
  function StoredProfile(storage: map<string, Stored>): Option<UserProfile> {
    match GetItem(storage, ProfileEntry)
    case Some(ProfileData(profile)) => Some(profile)
    case _ => None
  }

  class App {
    var isAuthenticated: bool
    var predictions: seq<PredictionRecord>
    var profile: UserProfile
    var isLoading: bool
    var storage: map<string, Stored>

    /** The flag in memory is the stored flag; with no saved history the list
        is empty and with no saved profile the profile is the default one;
        while signed in, memory shows what storage holds. */
    ghost predicate Valid()
      reads this
    {
      && isAuthenticated == StoredAuth(storage)
      && !isLoading
      && (StoredPredictions(storage).None? ==> predictions == [])
      && (StoredProfile(storage).None? ==> profile == DefaultProfile())
      && (isAuthenticated ==> StoredPredictions(storage).GetOr(predictions) == predictions)
      && (isAuthenticated ==> StoredProfile(storage).GetOr(profile) == profile)
    }

    /** First render and the mount effect: signed in iff the stored flag is
        "true", and then the saved history and profile are loaded. */
    constructor (saved: map<string, Stored>)
      ensures Valid() && storage == saved
      ensures isAuthenticated == StoredAuth(saved)
      ensures predictions == if StoredAuth(saved) then StoredPredictions(saved).GetOr([]) else []
      ensures profile == if StoredAuth(saved) then StoredProfile(saved).GetOr(DefaultProfile()) else DefaultProfile()
    {
      isAuthenticated := false;
      predictions := [];
      profile := DefaultProfile();
      isLoading := true;
      storage := saved;
      new;
      var authStatus := GetItem(storage, AuthEntry);
      if authStatus == Some(Text("true")) {
        isAuthenticated := true;
        LoadData();
      } else {
        isLoading := false;
      }
    }

    /** Replaces the history and the profile by their saved copies where one
        exists, keeps the current value otherwise, and ends loading. */
    method LoadData()
      modifies this
      ensures predictions == StoredPredictions(storage).GetOr(old(predictions))
      ensures profile == StoredProfile(storage).GetOr(old(profile))
      ensures !isLoading
      ensures storage == old(storage) && isAuthenticated == old(isAuthenticated)
    {
      var savedPredictions := GetItem(storage, PredictionsEntry);
      var savedProfile := GetItem(storage, ProfileEntry);
      if savedPredictions.Some? && savedPredictions.value.PredictionList? {
        predictions := savedPredictions.value.records;
      }
      if savedProfile.Some? && savedProfile.value.ProfileData? {
        profile := savedProfile.value.profile;
      }
      isLoading := false;
    }

    /** Any username and password sign in. */
    method HandleLogin(username: string, password: string)
      requires Valid()
      modifies this
      ensures Valid() && isAuthenticated
      ensures storage == old(storage)[AuthEntry := Text("true")]
      ensures predictions == StoredPredictions(old(storage)).GetOr(old(predictions))
      ensures profile == StoredProfile(old(storage)).GetOr(old(profile))
    {
      storage := storage[AuthEntry := Text("true")];
      isAuthenticated := true;
      LoadData();
    }

    /** Signs out and empties the history in memory; the saved history and the
        profile stay. */
    method HandleLogout()
      requires Valid()
      modifies this
      ensures Valid() && !isAuthenticated
      ensures storage == old(storage) - {AuthEntry}
      ensures predictions == [] && profile == old(profile)
    {
      storage := storage - {AuthEntry};
      isAuthenticated := false;
      predictions := [];
    }

    /** Puts the new record first and saves the whole list. The handler
        prepends to `rendered`, the history of the render that created it,
        which is the current history only when nothing changed it since. */
    method AddPrediction(prediction: PredictionRecord, rendered: seq<PredictionRecord>)
      requires Valid()
      modifies this
      ensures Valid()
      ensures predictions == [prediction] + rendered
      ensures storage == old(storage)[PredictionsEntry := PredictionList(predictions)]
      ensures isAuthenticated == old(isAuthenticated) && profile == old(profile)
    {
      var updated := [prediction] + rendered;
      predictions := updated;
      storage := storage[PredictionsEntry := PredictionList(updated)];
    }

    /** Replaces the profile wholesale, in memory and in storage. */
    method UpdateUserProfile(newProfile: UserProfile)
      requires Valid()
      modifies this
      ensures Valid()
      ensures profile == newProfile
      ensures storage == old(storage)[ProfileEntry := ProfileData(newProfile)]
      ensures isAuthenticated == old(isAuthenticated) && predictions == old(predictions)
    {
      profile := newProfile;
      storage := storage[ProfileEntry := ProfileData(newProfile)];
    }

    /** Empties the history and drops its saved copy. */
    method ClearHistory()
      requires Valid()
      modifies this
      ensures Valid()
      ensures predictions == []
      ensures storage == old(storage) - {PredictionsEntry}
      ensures isAuthenticated == old(isAuthenticated) && profile == old(profile)
    {
      predictions := [];
      storage := storage - {PredictionsEntry};
    }
  }

  /** Reloading the page while signed in shows the same history and profile:
      everything the handlers change in memory they also save. */
  /** The prediction form calls the handler of an earlier render after a delay.
      If the history was cleared in between, the late call brings the cleared
      records back, in memory and in storage. */
  method ClearThenLateAdd(app: App, prediction: PredictionRecord)
    requires app.Valid()
    modifies app
    ensures app.Valid()
    ensures app.predictions == [prediction] + old(app.predictions)
    ensures StoredPredictions(app.storage) == Some(app.predictions)
  {
    var rendered := app.predictions;
    app.ClearHistory();
    app.AddPrediction(prediction, rendered);
  }

  method Reload(app: App) returns (reloaded: App)
    requires app.Valid()
    ensures reloaded.isAuthenticated == app.isAuthenticated
    ensures app.isAuthenticated ==> reloaded.predictions == app.predictions && reloaded.profile == app.profile
    ensures !app.isAuthenticated ==> reloaded.predictions == []
  {
    reloaded := new App(app.storage);
  }
}

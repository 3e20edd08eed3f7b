/**
 * The server's record handlers (src/supabase/functions/server/index.tsx):
 * how they build keys from a user id, what each does to the key-value table,
 * and what that means for listing, clearing and profiles.
 */
module RecordService {
  import opened Wrappers
  import opened Records
  import opened KvStore

  // ---------------------------------------------------------------- keys

  /** `predictions:{userId}:` — the prefix the list and clear handlers scan. */
  function PredictionPrefix(userId: string): (pre: string)
    ensures |pre| == |"predictions:"| + |userId| + 1
    ensures "predictions:" <= pre && pre[|"predictions:"|..|pre| - 1] == userId && pre[|pre| - 1] == ':'
  {
    "predictions:" + userId + ":"
  }

  /** `predictions:{userId}:{id}` — where a prediction is saved. */
  function PredictionKey(userId: string, id: string): (k: string)
    ensures PredictionPrefix(userId) <= k && k[|PredictionPrefix(userId)|..] == id
  {
    PredictionPrefix(userId) + id
  }

  /** `profile:{userId}` — the single profile document of a user. */
  function ProfileKey(userId: string): (k: string)
    ensures "profile:" <= k && k[|"profile:"|..] == userId
  {
    "profile:" + userId
  }

  /** The keys the clear handler rebuilds from the scanned documents' ids. */
  function RebuiltKeys(userId: string, values: seq<Value>): (ks: seq<string>)
    ensures |ks| == |values|
    ensures forall i :: 0 <= i < |ks| ==> ks[i] == PredictionKey(userId, IdText(values[i]))
    ensures forall i :: 0 <= i < |ks| ==> PredictionPrefix(userId) <= ks[i]
  {
    seq(|values|, i requires 0 <= i < |values| => PredictionKey(userId, IdText(values[i])))
  }

  // --------------------------------------------- the table after each handler

  /** The keys whose documents the list handler returns for `userId`. */
  function ListedKeys(m: map<string, Value>, userId: string): set<string> {
    Matching(m, PredictionPrefix(userId))
  }

  function AfterSave(m: map<string, Value>, userId: string, p: PredictionRecord): map<string, Value> {
    m[PredictionKey(userId, p.id) := Prediction(p)]
  }

  /** The keys the clear handler deletes: one rebuilt key per listed document. */
  function ClearedKeys(m: map<string, Value>, userId: string): set<string> {
    set k | k in m && PredictionPrefix(userId) <= k :: PredictionKey(userId, IdText(m[k]))
  }

  function AfterClear(m: map<string, Value>, userId: string): map<string, Value> {
    m - ClearedKeys(m, userId)
  }

  function AfterSetProfile(m: map<string, Value>, userId: string, p: UserProfile): map<string, Value> {
    m[ProfileKey(userId) := Profile(p)]
  }

  function ProfileOf(m: map<string, Value>, userId: string): Option<Value> {
    if ProfileKey(userId) in m then Some(m[ProfileKey(userId)]) else None
  }

  // ------------------------------------------------------------ handlers

  /** GET /predictions/:userId */
  method ListPredictions(kv: Store, userId: string) returns (r: Result<seq<Value>, string>, ghost keys: seq<string>)
    ensures kv.reachable ==> IsScan(kv.table, PredictionPrefix(userId), keys)
    ensures kv.reachable ==> r == Ok(ValuesAt(kv.table, keys))
    ensures kv.reachable && ListedKeys(kv.table, userId) == {} ==> r == Ok([])
    ensures !kv.reachable ==> r == Err("Failed to fetch predictions")
  {
    var found;
    found, keys := kv.GetByPrefix(PredictionPrefix(userId));
    if found.Err? {
      return Err("Failed to fetch predictions"), keys;
    }
    ScanSize(kv.table, PredictionPrefix(userId), keys);
    r := Ok(found.value);
  }

  /** POST /predictions/:userId */
  method SavePrediction(kv: Store, userId: string, prediction: PredictionRecord) returns (r: Result<(), string>)
    modifies kv`table
    ensures r == if kv.reachable then Ok(()) else Err("Failed to save prediction")
    ensures kv.table == if kv.reachable then AfterSave(old(kv.table), userId, prediction) else old(kv.table)
  {
    var key := PredictionKey(userId, prediction.id);
    var written := kv.Set(key, Prediction(prediction));
    r := if written.Ok? then Ok(()) else Err("Failed to save prediction");
  }

  /** The set of keys rebuilt from a scan is the set `ClearedKeys` names. */
  lemma {:induction false} RebuiltKeysOfScan(m: map<string, Value>, userId: string, keys: seq<string>)
    requires IsScan(m, PredictionPrefix(userId), keys)
    ensures (set k | k in RebuiltKeys(userId, ValuesAt(m, keys))) == ClearedKeys(m, userId)
  {
    var rebuilt := RebuiltKeys(userId, ValuesAt(m, keys));
    forall x | x in ClearedKeys(m, userId) ensures x in rebuilt {
      var k :| k in m && PredictionPrefix(userId) <= k && x == PredictionKey(userId, IdText(m[k]));
      var i :| 0 <= i < |keys| && keys[i] == k;
      assert rebuilt[i] == x;
    }
    forall x | x in rebuilt ensures x in ClearedKeys(m, userId) {
      var i :| 0 <= i < |rebuilt| && rebuilt[i] == x;
      assert keys[i] in m && PredictionPrefix(userId) <= keys[i];
    }
  }

  /** DELETE /predictions/:userId — scan, rebuild keys from ids, delete them. */
  method ClearPredictions(kv: Store, userId: string) returns (r: Result<(), string>)
    modifies kv`table
    ensures r == if kv.reachable then Ok(()) else Err("Failed to delete predictions")
    ensures kv.table == if kv.reachable then AfterClear(old(kv.table), userId) else old(kv.table)
  {
    var found, keys := kv.GetByPrefix(PredictionPrefix(userId));
    if found.Err? {
      return Err("Failed to delete predictions");
    }
    var rebuilt := RebuiltKeys(userId, found.value);
    RebuiltKeysOfScan(kv.table, userId, keys);
    if |rebuilt| > 0 {
      var deleted := kv.Mdel(rebuilt);
      r := if deleted.Ok? then Ok(()) else Err("Failed to delete predictions");
    } else {
      assert kv.table - ClearedKeys(kv.table, userId) == kv.table;
      r := Ok(());
    }
  }

  /** GET /profile/:userId — None (JSON null) when no profile was ever set. */
  method GetProfile(kv: Store, userId: string) returns (r: Result<Option<Value>, string>)
    ensures kv.reachable ==> r == Ok(ProfileOf(kv.table, userId))
    ensures !kv.reachable ==> r == Err("Failed to fetch profile")
  {
    var found := kv.Get(ProfileKey(userId));
    r := if found.Ok? then Ok(found.value) else Err("Failed to fetch profile");
  }

  /** POST /profile/:userId */
  method SetProfile(kv: Store, userId: string, profile: UserProfile) returns (r: Result<(), string>)
    modifies kv`table
    ensures r == if kv.reachable then Ok(()) else Err("Failed to update profile")
    ensures kv.table == if kv.reachable then AfterSetProfile(old(kv.table), userId, profile) else old(kv.table)
  {
    var written := kv.Set(ProfileKey(userId), Profile(profile));
    r := if written.Ok? then Ok(()) else Err("Failed to update profile");
  }
}

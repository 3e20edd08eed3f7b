/**
 * What the record handlers guarantee across calls: isolation between users
 * and between the two namespaces, round trips, and when clearing really
 * empties a user's history.
 */
module RecordLaws {
  import opened Wrappers
  import opened Records
  import opened KvStore
  import opened RecordService

  // --------------------------------------------------- prefix arithmetic

  /** Two colon-free ids whose `id:` forms are prefix-related are equal:
      both are what precedes the first `:` of the longer text. */
  lemma ColonFreeIdsUnique(a: string, b: string, s: string)
    requires ':' !in a && ':' !in b
    requires a + ":" <= b + ":" + s
    ensures a == b
  {
    var y := b + ":" + s;
    var t := y[|a| + 1..];
    assert y == a + ":" + t;
    AfterFirstColonSplits(a, t);
    AfterFirstColonSplits(b, s);
    assert |a| == |b|;
    assert a == y[..|a|] == b;
  }

  /** Users whose ids contain no `:` never see each other's keys. */
  lemma PrefixIsolation(owner: string, other: string, id: string)
    requires ':' !in owner && ':' !in other && owner != other
    ensures !(PredictionPrefix(other) <= PredictionKey(owner, id))
  {
    if PredictionPrefix(other) <= PredictionKey(owner, id) {
      ColonFreeIdsUnique(other, owner, id);
    }
  }

  /** A user whose id extends `userId` with `:` has its saves listed for `userId`. */
  lemma ColonUserVisible(m: map<string, Value>, userId: string, suffix: string, p: PredictionRecord)
    ensures PredictionKey(userId + ":" + suffix, p.id) in ListedKeys(AfterSave(m, userId + ":" + suffix, p), userId)
  {
    assert PredictionKey(userId + ":" + suffix, p.id) == PredictionPrefix(userId) + (suffix + ":" + p.id);
  }

  /** No prediction key is a profile key, and no profile key lies under a prediction prefix. */
  lemma NamespacesDisjoint(userId: string, id: string, other: string)
    ensures PredictionKey(userId, id) != ProfileKey(other)
    ensures !(PredictionPrefix(userId) <= ProfileKey(other))
    ensures !("predictions:" <= ProfileKey(other))
  {
    assert PredictionKey(userId, id)[2] == 'e' && ProfileKey(other)[2] == 'o';
    assert PredictionPrefix(userId)[2] == 'e';
  }

  // ------------------------------------------------------------- saving

  /** A save is visible in the owner's listing with the whole record. */
  lemma SaveThenList(m: map<string, Value>, userId: string, p: PredictionRecord)
    ensures ListedKeys(AfterSave(m, userId, p), userId) == ListedKeys(m, userId) + {PredictionKey(userId, p.id)}
    ensures AfterSave(m, userId, p)[PredictionKey(userId, p.id)] == Prediction(p)
    ensures forall k :: k in m && k != PredictionKey(userId, p.id) ==> AfterSave(m, userId, p)[k] == m[k]
  {
  }

  /** Any listing taken after a save returns the saved record. */
  lemma SaveThenListed(m: map<string, Value>, userId: string, p: PredictionRecord, keys: seq<string>)
    requires IsScan(AfterSave(m, userId, p), PredictionPrefix(userId), keys)
    ensures Prediction(p) in ValuesAt(AfterSave(m, userId, p), keys)
  {
    var m' := AfterSave(m, userId, p);
    var k := PredictionKey(userId, p.id);
    assert k in m' && PredictionPrefix(userId) <= k;
    var i :| 0 <= i < |keys| && keys[i] == k;
    assert ValuesAt(m', keys)[i] == Prediction(p);
  }

  /** Saving the same record twice leaves the table as one save does. */
  lemma SaveIdempotent(m: map<string, Value>, userId: string, p: PredictionRecord)
    ensures AfterSave(AfterSave(m, userId, p), userId, p) == AfterSave(m, userId, p)
  {
  }

  /** Between colon-free users, a save changes nothing another user lists. */
  lemma SaveIsolation(m: map<string, Value>, owner: string, other: string, p: PredictionRecord)
    requires ':' !in owner && ':' !in other && owner != other
    ensures ListedKeys(AfterSave(m, owner, p), other) == ListedKeys(m, other)
    ensures forall k :: k in ListedKeys(m, other) ==> AfterSave(m, owner, p)[k] == m[k]
  {
    PrefixIsolation(owner, other, p.id);
  }

  /** Prediction writes leave every profile as it was. */
  lemma PredictionWritesKeepProfiles(m: map<string, Value>, userId: string, p: PredictionRecord, other: string)
    ensures ProfileOf(AfterSave(m, userId, p), other) == ProfileOf(m, other)
    ensures ProfileOf(AfterClear(m, userId), other) == ProfileOf(m, other)
  {
    NamespacesDisjoint(userId, p.id, other);
    forall k | k in m && PredictionPrefix(userId) <= k
      ensures PredictionKey(userId, IdText(m[k])) != ProfileKey(other)
    {
      NamespacesDisjoint(userId, IdText(m[k]), other);
    }
  }

  // ------------------------------------------------------------ profiles

  /** A profile write replaces the document wholesale, is what a following get
      returns, and leaves other users' profiles and every prediction listing alone. */
  lemma SetProfileThenGet(m: map<string, Value>, userId: string, profile: UserProfile, other: string)
    ensures ProfileOf(AfterSetProfile(m, userId, profile), userId) == Some(Profile(profile))
    ensures other != userId ==> ProfileOf(AfterSetProfile(m, userId, profile), other) == ProfileOf(m, other)
    ensures ListedKeys(AfterSetProfile(m, userId, profile), other) == ListedKeys(m, other)
    ensures forall k :: k in ListedKeys(m, other) ==> AfterSetProfile(m, userId, profile)[k] == m[k]
  {
    if other != userId {
      assert ProfileKey(other)[|"profile:"|..] == other;
      assert ProfileKey(userId)[|"profile:"|..] == userId;
    }
    NamespacesDisjoint(other, "", userId);
  }

  /** A second profile write leaves nothing of the first. */
  lemma ProfileReplacedNotMerged(m: map<string, Value>, userId: string, first: UserProfile, second: UserProfile)
    ensures AfterSetProfile(AfterSetProfile(m, userId, first), userId, second) == AfterSetProfile(m, userId, second)
    ensures ProfileOf(AfterSetProfile(AfterSetProfile(m, userId, first), userId, second), userId) == Some(Profile(second))
  {
  }

  // ------------------------------------------------------------ clearing

  /** Clear deletes only keys under the user's prefix; the user's listing keeps
      exactly the listed keys that no rebuilt key names. */
  lemma ClearStaysInPrefix(m: map<string, Value>, userId: string)
    ensures forall k :: k in m && !(PredictionPrefix(userId) <= k) ==> k in AfterClear(m, userId) && AfterClear(m, userId)[k] == m[k]
    ensures AfterClear(m, userId).Keys <= m.Keys
    ensures ListedKeys(AfterClear(m, userId), userId) == ListedKeys(m, userId) - ClearedKeys(m, userId)
  {
  }

  /** When every listed key is the prefix followed by its document's id, clear
      leaves the user nothing to list. */
  lemma ClearEmptiesWhenKeysMatchIds(m: map<string, Value>, userId: string)
    requires forall k :: k in ListedKeys(m, userId) ==> k == PredictionKey(userId, IdText(m[k]))
    ensures ListedKeys(AfterClear(m, userId), userId) == {}
  {
    forall k | k in ListedKeys(m, userId) ensures k in ClearedKeys(m, userId) {
      assert k == PredictionKey(userId, IdText(m[k]));
    }
    ClearStaysInPrefix(m, userId);
  }

  /** Clear leaves the user nothing to list exactly when every listed key is
      one of the keys rebuilt from the listed documents' ids. */
  lemma ClearEmptiesIffListedRebuilt(m: map<string, Value>, userId: string)
    ensures ListedKeys(AfterClear(m, userId), userId) == {} <==> ListedKeys(m, userId) <= ClearedKeys(m, userId)
  {
    ClearStaysInPrefix(m, userId);
    if ListedKeys(AfterClear(m, userId), userId) == {} {
      forall k | k in ListedKeys(m, userId) ensures k in ClearedKeys(m, userId) {
        assert k !in ListedKeys(m, userId) - ClearedKeys(m, userId);
      }
    }
  }

  /** A key need not match its own document's id for clear to delete it:
      two documents whose ids are swapped between their keys are both cleared. */
  lemma SwappedIdsStillCleared(userId: string, p: PredictionRecord, q: PredictionRecord)
    requires p.id == "b" && q.id == "a"
    ensures var m := map[PredictionKey(userId, "a") := Prediction(p), PredictionKey(userId, "b") := Prediction(q)];
      PredictionKey(userId, "a") != PredictionKey(userId, IdText(m[PredictionKey(userId, "a")]))
      && ListedKeys(AfterClear(m, userId), userId) == {}
  {
    var ka, kb := PredictionKey(userId, "a"), PredictionKey(userId, "b");
    var m := map[ka := Prediction(p), kb := Prediction(q)];
    assert ka[|PredictionPrefix(userId)|..] == "a" && kb[|PredictionPrefix(userId)|..] == "b";
    assert ka in ListedKeys(m, userId) && kb in ListedKeys(m, userId);
    assert kb in ClearedKeys(m, userId) && ka in ClearedKeys(m, userId);
    ClearEmptiesIffListedRebuilt(m, userId);
  }

  /** Clearing `userId` keeps the records of user `userId:suffix` that its
      listing shows: they were listed, but their rebuilt key is a different key. */
  lemma ClearMissesColonUser(userId: string, suffix: string, p: PredictionRecord)
    ensures var m := AfterSave(map[], userId + ":" + suffix, p);
      ListedKeys(AfterClear(m, userId), userId) == {PredictionKey(userId + ":" + suffix, p.id)}
  {
    var m := AfterSave(map[], userId + ":" + suffix, p);
    var saved := PredictionKey(userId + ":" + suffix, p.id);
    ColonUserVisible(map[], userId, suffix, p);
    assert m.Keys == {saved};
    assert ClearedKeys(m, userId) == {PredictionKey(userId, p.id)};
    assert |saved| > |PredictionKey(userId, p.id)|;
    ClearStaysInPrefix(m, userId);
  }

  // ------------------------------------------- the keys-match-ids invariant

  /** The text after the first `:` of `s`, if `s` has one. */
  function AfterFirstColon(s: string): (r: Option<string>)
    ensures r.None? <==> ':' !in s
  {
    if s == [] then None
    else if s[0] == ':' then Some(s[1..])
    else AfterFirstColon(s[1..])
  }

  lemma {:induction false} AfterFirstColonSplits(userId: string, rest: string)
    requires ':' !in userId
    ensures AfterFirstColon(userId + ":" + rest) == Some(rest)
  {
    if userId != [] {
      assert (userId + ":" + rest)[1..] == userId[1..] + ":" + rest;
      AfterFirstColonSplits(userId[1..], rest);
    }
  }

  /** Every prediction key is `predictions:`, an owner without `:`, `:`, and
      the id of the document stored there — what saves by colon-free users leave. */
  ghost predicate WellKeyed(m: map<string, Value>) {
    forall k :: k in m && "predictions:" <= k ==> AfterFirstColon(k[|"predictions:"|..]) == Some(IdText(m[k]))
  }

  /** On a well-keyed table, a key under a colon-free user's prefix is that
      prefix followed by its document's id. */
  lemma WellKeyedKeyMatchesId(m: map<string, Value>, userId: string, k: string)
    requires WellKeyed(m) && ':' !in userId
    requires k in ListedKeys(m, userId)
    ensures k == PredictionKey(userId, IdText(m[k]))
  {
    var pre := PredictionPrefix(userId);
    var rest := k[|pre|..];
    assert k == pre + rest;
    assert k[|"predictions:"|..] == userId + ":" + rest;
    assert "predictions:" <= k;
    AfterFirstColonSplits(userId, rest);
  }

  lemma WellKeyedKeysMatchIds(m: map<string, Value>, userId: string)
    requires WellKeyed(m) && ':' !in userId
    ensures forall k :: k in ListedKeys(m, userId) ==> k == PredictionKey(userId, IdText(m[k]))
  {
    forall k | k in ListedKeys(m, userId) ensures k == PredictionKey(userId, IdText(m[k])) {
      WellKeyedKeyMatchesId(m, userId, k);
    }
  }

  lemma SaveKeepsWellKeyed(m: map<string, Value>, userId: string, p: PredictionRecord)
    requires WellKeyed(m) && ':' !in userId
    ensures WellKeyed(AfterSave(m, userId, p))
  {
    var key := PredictionKey(userId, p.id);
    assert key[|"predictions:"|..] == userId + ":" + p.id;
    AfterFirstColonSplits(userId, p.id);
  }

  lemma SetProfileKeepsWellKeyed(m: map<string, Value>, userId: string, profile: UserProfile)
    requires WellKeyed(m)
    ensures WellKeyed(AfterSetProfile(m, userId, profile))
  {
    NamespacesDisjoint("", "", userId);
  }

  lemma ClearKeepsWellKeyed(m: map<string, Value>, userId: string)
    requires WellKeyed(m)
    ensures WellKeyed(AfterClear(m, userId))
  {
  }

  /** One call of a write handler that succeeded. */
  datatype Write =
    | SaveCall(userId: string, prediction: PredictionRecord)
    | ClearCall(userId: string)
    | SetProfileCall(userId: string, profile: UserProfile)

  function Apply(m: map<string, Value>, w: Write): map<string, Value> {
    match w
    case SaveCall(u, p) => AfterSave(m, u, p)
    case ClearCall(u) => AfterClear(m, u)
    case SetProfileCall(u, pr) => AfterSetProfile(m, u, pr)
  }

  /** The table after a sequence of successful writes, oldest first. */
  function Replay(m: map<string, Value>, writes: seq<Write>): map<string, Value>
    decreases |writes|
  {
    if writes == [] then m else Replay(Apply(m, writes[0]), writes[1..])
  }

  /** Writes by colon-free users keep every key matching its document's id. */
  lemma {:induction false} ReplayKeepsWellKeyed(m: map<string, Value>, writes: seq<Write>)
    requires WellKeyed(m)
    requires forall i :: 0 <= i < |writes| ==> ':' !in writes[i].userId
    ensures WellKeyed(Replay(m, writes))
    decreases |writes|
  {
    if writes != [] {
      match writes[0] {
        case SaveCall(u, p) => SaveKeepsWellKeyed(m, u, p);
        case ClearCall(u) => ClearKeepsWellKeyed(m, u);
        case SetProfileCall(u, pr) => SetProfileKeepsWellKeyed(m, u, pr);
      }
      ReplayKeepsWellKeyed(Apply(m, writes[0]), writes[1..]);
    }
  }

  /** Clear is total for a colon-free user on any table written only by
      colon-free users, starting from an empty table. */
  lemma ClearIsTotal(writes: seq<Write>, userId: string)
    requires forall i :: 0 <= i < |writes| ==> ':' !in writes[i].userId
    requires ':' !in userId
    ensures ListedKeys(AfterClear(Replay(map[], writes), userId), userId) == {}
  {
    ReplayKeepsWellKeyed(map[], writes);
    WellKeyedKeysMatchIds(Replay(map[], writes), userId);
    ClearEmptiesWhenKeysMatchIds(Replay(map[], writes), userId);
  }

  /** After a save on such a table, exactly one listed key holds a document with the saved id. */
  lemma SavedIdListedOnce(m: map<string, Value>, userId: string, p: PredictionRecord)
    requires WellKeyed(m) && ':' !in userId
    ensures var m' := AfterSave(m, userId, p);
      (set k | k in ListedKeys(m', userId) && IdText(m'[k]) == p.id) == {PredictionKey(userId, p.id)}
  {
    var m' := AfterSave(m, userId, p);
    SaveKeepsWellKeyed(m, userId, p);
    WellKeyedKeysMatchIds(m', userId);
  }
}

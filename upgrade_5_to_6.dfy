/** The database upgrade from schema version 5 to 6: every run's description gets `version`
    as its first key, inside one transaction that is rolled back as a whole when any run
    fails. */
module Upgrade5To6 {
  import opened Wrappers

  /** The parse tree of a stored JSON text: an object keeps its members in text order,
      duplicate keys included (`Get` applies the last-wins lookup of the dict `json.loads`
      builds). */
  datatype Json =
    | JNull
    | JBool(b: bool)
    | JInt(i: int)
    | JFloat(x: real)
    | JString(s: string)
    | JArray(items: seq<Json>)
    | JObject(members: seq<(string, Json)>)

  /** The keys of an object's members, in order. */
  function Keys(members: seq<(string, Json)>): (ks: seq<string>)
    ensures |ks| == |members|
    ensures forall i :: 0 <= i < |members| ==> ks[i] == members[i].0
  {
    seq(|members|, i requires 0 <= i < |members| => members[i].0)
  }

  /** `obj[key]` on the dict `json.loads` builds: the last member with that key wins. */
  function Get(members: seq<(string, Json)>, key: string): (r: Option<Json>)
    ensures r.None? <==> key !in Keys(members)
  {
    if |members| == 0 then None
    else if members[|members| - 1].0 == key then Some(members[|members| - 1].1)
    else
      var r := Get(members[..|members| - 1], key);
      assert Keys(members) == Keys(members[..|members| - 1]) + [members[|members| - 1].0];
      r
  }

  /** The value found for a key is that of its last member. */
  lemma {:induction false} GetLast(members: seq<(string, Json)>, key: string)
    requires key in Keys(members)
    ensures exists i :: && 0 <= i < |members| && members[i] == (key, Get(members, key).value)
                        && forall j :: i < j < |members| ==> members[j].0 != key
  {
    var last := |members| - 1;
    if members[last].0 == key {
      assert members[last] == (key, Get(members, key).value);
    } else {
      var init := members[..last];
      assert Keys(members) == Keys(init) + [members[last].0];
      GetLast(init, key);
      var i :| && 0 <= i < |init| && init[i] == (key, Get(init, key).value)
               && forall j :: i < j < |init| ==> init[j].0 != key;
      assert members[i] == init[i];
    }
  }

  /** The text in a run's `run_description` column: what `json.loads` makes of it, or text it
      rejects. */
  datatype Stored = Encoded(doc: Json) | Malformed(text: string)

  /** Why one run's description could not be rewritten. */
  datatype Failure =
    | MissingRun         // the run has no row to read its description from
    | JSONDecodeError    // the stored text is not JSON
    | TypeError          // the stored JSON is not an object
    | KeyError(key: string)

  /** A failed upgrade: the run it failed on and why. */
  datatype UpgradeError = UpgradeError(runId: int, cause: Failure)

  const VERSION := "version"
  const INTERDEPENDENCIES := "interdependencies"

  /** A description the upgrade can rewrite: none at all, or a JSON object that has an
      `interdependencies` member. */
  predicate Rewritable(d: Option<Stored>)
  {
    d.Some? ==> d.value.Encoded? && d.value.doc.JObject?
                && INTERDEPENDENCIES in Keys(d.value.doc.members)
  }

  /** The `version 6` description of one run: `None` (a run stored before descriptions
      existed) becomes version 0 with the serialized empty `InterDependencies`; a stored
      document keeps only its `interdependencies`, after a `version` of 0. */
  function Rewrite(d: Option<Stored>, emptyIdps: Json): (r: Result<Stored, Failure>)
    ensures r.Ok? <==> Rewritable(d)
    ensures d.Some? && d.value.Malformed? ==> r == Err(JSONDecodeError)
    ensures d.Some? && d.value.Encoded? && !d.value.doc.JObject? ==> r == Err(TypeError)
    ensures r.Ok? ==> r.value.Encoded? && r.value.doc.JObject?
  {
    match d
    case None => Ok(Encoded(JObject([(VERSION, JInt(0)), (INTERDEPENDENCIES, emptyIdps)])))
    case Some(Malformed(_)) => Err(JSONDecodeError)
    case Some(Encoded(ser)) =>
      if !ser.JObject? then Err(TypeError)
      else match Get(ser.members, INTERDEPENDENCIES)
        case None => Err(KeyError(INTERDEPENDENCIES))
        case Some(idps) => Ok(Encoded(JObject([(VERSION, JInt(0)), (INTERDEPENDENCIES, idps)])))
  }

  /** A rewritten description has exactly the keys `version` and `interdependencies`, in this
      order; `version` is 0 and `interdependencies` is the stored one, or the empty one for a
      run without a description. */
  lemma RewriteShape(d: Option<Stored>, emptyIdps: Json)
    requires Rewrite(d, emptyIdps).Ok?
    ensures var doc := Rewrite(d, emptyIdps).value.doc;
            && Keys(doc.members) == [VERSION, INTERDEPENDENCIES]
            && Get(doc.members, VERSION) == Some(JInt(0))
            && Get(doc.members, INTERDEPENDENCIES)
               == if d.None? then Some(emptyIdps) else Get(d.value.doc.members, INTERDEPENDENCIES)
  {
  }

  /** Rewriting an upgraded description gives it back unchanged. */
  lemma RewriteIdempotent(d: Option<Stored>, emptyIdps: Json)
    requires Rewrite(d, emptyIdps).Ok?
    ensures Rewrite(Some(Rewrite(d, emptyIdps).value), emptyIdps) == Rewrite(d, emptyIdps)
  {
    var idps := if d.None? then emptyIdps else Get(d.value.doc.members, INTERDEPENDENCIES).value;
    var members := [(VERSION, JInt(0)), (INTERDEPENDENCIES, idps)];
    assert Rewrite(d, emptyIdps).value.doc.members == members;
    assert Get(members, INTERDEPENDENCIES) == Some(idps);
  }

  /** Run `id` cannot be upgraded: it has no row, or its description cannot be rewritten. */
  predicate Failing(store: map<int, Option<Stored>>, emptyIdps: Json, id: int)
  {
    id !in store || !Rewritable(store[id])
  }

  /** The first run in `lo..n` that cannot be upgraded, if any. */
  function FirstFailing(store: map<int, Option<Stored>>, emptyIdps: Json, lo: int, n: int)
    : (r: Option<int>)
    decreases n + 1 - lo
    ensures r.None? <==> forall id :: lo <= id <= n ==> !Failing(store, emptyIdps, id)
    ensures r.Some? ==> && lo <= r.value <= n && Failing(store, emptyIdps, r.value)
                        && (forall id :: lo <= id < r.value ==> !Failing(store, emptyIdps, id))
  {
    if lo > n then None
    else if Failing(store, emptyIdps, lo) then Some(lo)
    else FirstFailing(store, emptyIdps, lo + 1, n)
  }

  /** The store after runs `1..n` have been rewritten in increasing order, when none of
      them fails. */
  function Upgraded(store: map<int, Option<Stored>>, emptyIdps: Json, n: int)
    : (r: map<int, Option<Stored>>)
    requires forall id :: 1 <= id <= n ==> !Failing(store, emptyIdps, id)
    decreases n
  {
    if n < 1 then store
    else
      assert !Failing(store, emptyIdps, n);
      Upgraded(store, emptyIdps, n - 1)[n := Some(Rewrite(store[n], emptyIdps).value)]
  }

  /** The upgrade keeps every run, gives each run in `1..n` its rewritten description, and
      leaves the others alone. */
  lemma {:induction false} UpgradedAt(store: map<int, Option<Stored>>, emptyIdps: Json, n: int)
    requires forall id :: 1 <= id <= n ==> !Failing(store, emptyIdps, id)
    ensures Upgraded(store, emptyIdps, n).Keys == store.Keys
    ensures forall id :: id in store && !(1 <= id <= n) ==> Upgraded(store, emptyIdps, n)[id] == store[id]
    ensures forall id :: 1 <= id <= n ==>
              && id in store && Rewrite(store[id], emptyIdps).Ok?
              && Upgraded(store, emptyIdps, n)[id] == Some(Rewrite(store[id], emptyIdps).value)
    decreases n
  {
    if n >= 1 {
      UpgradedAt(store, emptyIdps, n - 1);
      assert !Failing(store, emptyIdps, n);
      forall id | 1 <= id <= n
        ensures id in store && Rewrite(store[id], emptyIdps).Ok?
      {
        assert !Failing(store, emptyIdps, id);
      }
    }
  }

  /** A run past the upgraded ones keeps its row and its description. */
  lemma {:induction false} UpgradedPast(store: map<int, Option<Stored>>, emptyIdps: Json, n: int,
                                        k: int)
    requires forall id :: 1 <= id <= n ==> !Failing(store, emptyIdps, id)
    requires k > n
    ensures k in Upgraded(store, emptyIdps, n) <==> k in store
    ensures k in store ==> Upgraded(store, emptyIdps, n)[k] == store[k]
    decreases n
  {
    if n >= 1 {
      UpgradedPast(store, emptyIdps, n - 1, k);
    }
  }

  /** One more run: upgrading `1..k` is writing run `k`'s rewrite over the upgrade of
      `1..k-1`. */
  lemma UpgradedNext(store: map<int, Option<Stored>>, emptyIdps: Json, k: int)
    requires k >= 1 && forall id :: 1 <= id < k ==> !Failing(store, emptyIdps, id)
    requires !Failing(store, emptyIdps, k)
    ensures forall id :: 1 <= id <= k ==> !Failing(store, emptyIdps, id)
    ensures Upgraded(store, emptyIdps, k)
            == Upgraded(store, emptyIdps, k - 1)[k := Some(Rewrite(store[k], emptyIdps).value)]
  {
  }

  /** After the upgrade each run in `1..n` has a description with the keys `version` and
      `interdependencies`, in this order, `version` being 0 and `interdependencies` the run's
      own, or the empty one for a run that had no description. */
  lemma UpgradedShape(store: map<int, Option<Stored>>, emptyIdps: Json, n: int, id: int)
    requires forall id :: 1 <= id <= n ==> !Failing(store, emptyIdps, id)
    requires 1 <= id <= n
    ensures && id in store && id in Upgraded(store, emptyIdps, n) && Rewrite(store[id], emptyIdps).Ok?
            && Upgraded(store, emptyIdps, n)[id] == Some(Rewrite(store[id], emptyIdps).value)
    ensures var doc := Upgraded(store, emptyIdps, n)[id].value.doc;
            && Keys(doc.members) == [VERSION, INTERDEPENDENCIES]
            && Get(doc.members, VERSION) == Some(JInt(0))
            && Get(doc.members, INTERDEPENDENCIES)
               == if store[id].None? then Some(emptyIdps)
                  else Get(store[id].value.doc.members, INTERDEPENDENCIES)
  {
    UpgradedAt(store, emptyIdps, n);
    RewriteShape(store[id], emptyIdps);
  }

  /** The first failing run is the failing run below which none fails. */
  lemma FirstFailingIs(store: map<int, Option<Stored>>, emptyIdps: Json, k: int, n: int)
    requires 1 <= k <= n && Failing(store, emptyIdps, k)
    requires forall id :: 1 <= id < k ==> !Failing(store, emptyIdps, id)
    ensures FirstFailing(store, emptyIdps, 1, n) == Some(k)
  {
  }

  /** Whether a run fails depends only on its own row. */
  lemma FailingAlike(a: map<int, Option<Stored>>, b: map<int, Option<Stored>>, emptyIdps: Json,
                     id: int)
    requires (id in a <==> id in b) && (id in a ==> a[id] == b[id])
    ensures Failing(a, emptyIdps, id) == Failing(b, emptyIdps, id)
  {
  }

  /** A store whose runs `1..k` already hold their own rewrite is left as it is. */
  lemma {:induction false} UpgradedFixed(store: map<int, Option<Stored>>, emptyIdps: Json, k: int)
    requires forall id :: 1 <= id <= k ==>
               && !Failing(store, emptyIdps, id) && store[id].Some?
               && Rewrite(store[id], emptyIdps) == Ok(store[id].value)
    ensures Upgraded(store, emptyIdps, k) == store
    decreases k
  {
    if k >= 1 {
      UpgradedFixed(store, emptyIdps, k - 1);
      assert !Failing(store, emptyIdps, k);
      assert store[k := Some(Rewrite(store[k], emptyIdps).value)] == store;
    }
  }

  /** The upgrade of an upgraded store changes nothing. */
  lemma UpgradeIdempotent(store: map<int, Option<Stored>>, emptyIdps: Json, n: int)
    requires forall id :: 1 <= id <= n ==> !Failing(store, emptyIdps, id)
    ensures forall id :: 1 <= id <= n ==> !Failing(Upgraded(store, emptyIdps, n), emptyIdps, id)
    ensures Upgraded(Upgraded(store, emptyIdps, n), emptyIdps, n) == Upgraded(store, emptyIdps, n)
  {
    var once := Upgraded(store, emptyIdps, n);
    UpgradedAt(store, emptyIdps, n);
    forall id | 1 <= id <= n
      ensures && !Failing(once, emptyIdps, id) && once[id].Some?
              && Rewrite(once[id], emptyIdps) == Ok(once[id].value)
    {
      RewriteIdempotent(store[id], emptyIdps);
    }
    UpgradedFixed(once, emptyIdps, n);
  }

  /** A read of a run's description (`get_run_description`) or a write of it
      (`update_run_description`). */
  datatype Access = Fetch(runId: int) | Update(runId: int)

  /** What the upgrade loop does over runs `lo..hi-1`: each run read and then written, in
      increasing order. */
  function Accesses(lo: int, hi: int): (r: seq<Access>)
    ensures |r| == if lo <= hi then 2 * (hi - lo) else 0
    decreases hi - lo
  {
    if hi <= lo then [] else Accesses(lo, hi - 1) + [Fetch(hi - 1), Update(hi - 1)]
  }

  /** Runs `lo..hi-1` are visited in increasing order, each read once and then written once. */
  lemma {:induction false} AccessesAt(lo: int, hi: int, k: nat)
    requires lo + k < hi
    ensures Accesses(lo, hi)[2 * k] == Fetch(lo + k)
    ensures Accesses(lo, hi)[2 * k + 1] == Update(lo + k)
    decreases hi - lo
  {
    if lo + k < hi - 1 {
      AccessesAt(lo, hi - 1, k);
    }
  }

  /** The `runs` table, reduced to each run's id and its `run_description` column. */
  class RunStore {
    var descriptions: map<int, Option<Stored>>
    /** The reads and writes of run descriptions, in call order. */
    var log: seq<Access>

    constructor(descriptions: map<int, Option<Stored>>)
      ensures this.descriptions == descriptions && log == []
    {
      this.descriptions := descriptions;
      log := [];
    }

    /** `SELECT max(run_id) FROM runs`: NULL when there are no runs. */
    method MaxRunId() returns (m: Option<int>)
      ensures m.None? <==> descriptions.Keys == {}
      ensures m.Some? ==> m.value in descriptions && forall id <- descriptions :: id <= m.value
    {
      var keys := descriptions.Keys;
      var ids := keys;
      m := None;
      while ids != {}
        invariant ids <= keys
        invariant m.None? ==> ids == keys
        invariant m.Some? ==> m.value in keys && forall id <- keys :: id !in ids ==> id <= m.value
        decreases |ids|
      {
        NonEmpty(ids);
        var id :| id in ids;
        if m.None? || id > m.value {
          m := Some(id);
        }
        ids := ids - {id};
      }
    }

    /** `get_run_description`: the stored column, or a failure when the run has no row. */
    method GetRunDescription(runId: int) returns (r: Result<Option<Stored>, Failure>)
      modifies this
      ensures descriptions == old(descriptions) && log == old(log) + [Fetch(runId)]
      ensures r.Ok? <==> runId in descriptions
      ensures r.Ok? ==> r.value == descriptions[runId]
      ensures r.Err? ==> r.error == MissingRun
    {
      log := log + [Fetch(runId)];
      if runId !in descriptions {
        return Err(MissingRun);
      }
      return Ok(descriptions[runId]);
    }

    /** `update_run_description`: an UPDATE of the run's row, which changes nothing when the
        run has no row. */
    method UpdateRunDescription(runId: int, d: Stored)
      modifies this
      ensures descriptions == if runId in old(descriptions) then old(descriptions)[runId := Some(d)]
                              else old(descriptions)
      ensures log == old(log) + [Update(runId)]
    {
      if runId in descriptions {
        descriptions := descriptions[runId := Some(d)];
      }
      log := log + [Update(runId)];
    }

    /** One pass of the upgrade loop: read run `runId`'s description, rewrite it, and write
        it back; a run that fails is read but neither written nor logged as updated. */
    method UpgradeRun(runId: int, emptyIdps: Json) returns (r: Result<(), Failure>)
      modifies this
      ensures r.Err? <==> Failing(old(descriptions), emptyIdps, runId)
      ensures r.Err? ==> descriptions == old(descriptions) && log == old(log) + [Fetch(runId)]
      ensures r.Ok? ==> && Rewrite(old(descriptions)[runId], emptyIdps).Ok?
                        && descriptions == old(descriptions)[runId :=
                             Some(Rewrite(old(descriptions)[runId], emptyIdps).value)]
                        && log == old(log) + [Fetch(runId), Update(runId)]
    {
      var jsonStr :- GetRunDescription(runId);
      var newJson :- Rewrite(jsonStr, emptyIdps);
      UpdateRunDescription(runId, newJson);
      return Ok(());
    }

    /** The loop of `upgrade_5_to_6` over runs `1..n`, in increasing order, each written
        once; it stops at the first run that fails, with the runs before it already
        rewritten. */
    method RewriteRuns(n: int, emptyIdps: Json) returns (r: Result<(), UpgradeError>)
      modifies this
      ensures r.Err? <==> FirstFailing(old(descriptions), emptyIdps, 1, n).Some?
      ensures r.Err? ==> && r.error.runId == FirstFailing(old(descriptions), emptyIdps, 1, n).value
                         && descriptions == Upgraded(old(descriptions), emptyIdps, r.error.runId - 1)
                         && log == old(log) + Accesses(1, r.error.runId) + [Fetch(r.error.runId)]
      ensures r.Ok? ==> && descriptions == Upgraded(old(descriptions), emptyIdps, n)
                        && log == old(log) + Accesses(1, n + 1)
    {
      ghost var start, logged := descriptions, log;
      var runId := 1;
      while runId <= n
        invariant 1 <= runId <= if n < 1 then 1 else n + 1
        invariant forall id :: 1 <= id < runId ==> !Failing(start, emptyIdps, id)
        invariant descriptions == Upgraded(start, emptyIdps, runId - 1)
        invariant log == logged + Accesses(1, runId)
      {
        UpgradedPast(start, emptyIdps, runId - 1, runId);
        FailingAlike(descriptions, start, emptyIdps, runId);
        var step := UpgradeRun(runId, emptyIdps);
        if step.Err? {
          FirstFailingIs(start, emptyIdps, runId, n);
          return Err(UpgradeError(runId, step.error));
        }
        UpgradedNext(start, emptyIdps, runId);
        runId := runId + 1;
      }
      if n < 1 {
        assert runId == 1;
      }
      return Ok(());
    }

    /** The rollback of the transaction: every description back to `saved`. */
    method Rollback(saved: map<int, Option<Stored>>)
      modifies this
      ensures descriptions == saved && log == old(log)
    {
      descriptions := saved;
    }

    /** `upgrade_5_to_6`. The number of runs is `max(run_id)`, or 0 when there is none; runs
        `1..n` are rewritten in increasing order, each written once; the first run that fails
        aborts the upgrade, and the transaction puts every description back as it was. */
    method Upgrade(emptyIdps: Json) returns (n: int, r: Result<(), UpgradeError>)
      modifies this
      ensures old(descriptions).Keys == {} ==> n == 0 && descriptions == old(descriptions)
                                               && log == old(log)
      ensures old(descriptions).Keys != {} ==> n in old(descriptions)
                                               && forall id <- old(descriptions) :: id <= n
      ensures r.Err? <==> FirstFailing(old(descriptions), emptyIdps, 1, n).Some?
      ensures r.Err? ==> && r.error.runId == FirstFailing(old(descriptions), emptyIdps, 1, n).value
                         && descriptions == old(descriptions)
                         && log == old(log) + Accesses(1, r.error.runId) + [Fetch(r.error.runId)]
      ensures r.Ok? ==> && descriptions == Upgraded(old(descriptions), emptyIdps, n)
                        && log == old(log) + Accesses(1, n + 1)
    {
      var noOfRuns := MaxRunId();
      n := if noOfRuns.Some? then noOfRuns.value else 0;
      // `with atomic(conn)`: the state a rollback restores
      var saved := descriptions;
      r := RewriteRuns(n, emptyIdps);
      if r.Err? {
        Rollback(saved);
      }
    }
  }

  /** A nonempty set has an element. */
  lemma NonEmpty(ids: set<int>)
    requires ids != {}
    ensures exists id :: id in ids
  {
    assert (forall id :: id !in ids) ==> ids == {};
  }
}

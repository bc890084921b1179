/** The manager and its sessions, object by object, behave as the registry says. */
module Histories {
  import opened Media
  import opened CloseInfos
  import opened SessionModel
  import opened Sessions
  import opened Managers
  import opened Orders
  import opened Registry

  /** The n-th session ever created is objects[n]; the objects and the manager's map hold what the registry holds. */
  ghost predicate Reflects(m: Manager, objects: seq<Session>, r: Registry)
    reads m, objects
  {
    && |objects| == |r.ids| == |r.controls|
    && (forall i, j :: 0 <= i < j < |objects| ==> objects[i] != objects[j])
    && (forall i :: 0 <= i < |objects| ==>
          objects[i].Valid() && objects[i].id == r.ids[i] && objects[i].control == r.controls[i])
    && m.sessions.Keys == r.filed.Keys
    && (forall id :: id in r.filed ==>
          && r.filed[id] < |objects| && r.ids[r.filed[id]] == id && m.sessions[id] == objects[r.filed[id]])
  }

  lemma {:induction false} ReflectsValid(m: Manager, objects: seq<Session>, r: Registry)
    requires Reflects(m, objects, r)
    ensures m.Valid()
  {
    forall id | id in m.sessions
      ensures m.sessions[id].id == id && m.sessions[id].Valid()
    {
      assert id in m.sessions.Keys;
      assert id in r.filed;
    }
  }

  method PerformCreate(m: Manager, objects: seq<Session>, id: string, now: int, ghost r: Registry)
    returns (grown: seq<Session>)
    requires Reflects(m, objects, r)
    modifies m
    ensures Reflects(m, grown, Step(r, Create(id)))
    ensures exists s :: fresh(s) && grown == objects + [s]
  {
    ReflectsValid(m, objects, r);
    var s := m.Create(id, now);
    grown := objects + [s];
  }

  /** The handler of session n has it handshake and become active. */
  method PerformAdvance(m: Manager, objects: seq<Session>, n: nat, ghost r: Registry)
    requires Reflects(m, objects, r) && n < |objects|
    modifies {objects[n]}`control
    ensures Reflects(m, objects, Step(r, Advance(n)))
  {
    objects[n].BeginHandshake();
    objects[n].MarkActive();
  }

  method PerformRequest(m: Manager, objects: seq<Session>, n: nat, info: CloseInfo, ghost r: Registry)
    requires Reflects(m, objects, r) && n < |objects|
    modifies {objects[n]}`control
    ensures Reflects(m, objects, Step(r, Request(n, info)))
  {
    var toCall := objects[n].RequestClose(info);
  }

  method PerformKill(m: Manager, objects: seq<Session>, id: string, ghost r: Registry)
    requires Reflects(m, objects, r)
    modifies (set s | s in objects)`control
    ensures Reflects(m, objects, Step(r, KillId(id)))
  {
    ReflectsValid(m, objects, r);
    assert id in m.sessions <==> id in m.sessions.Keys;
    if id in m.sessions {
      assert m.sessions[id] in objects;
      var found, toCall := m.Kill(id);
    }
  }

  method PerformCleanup(m: Manager, objects: seq<Session>, n: nat, fallback: CloseInfo, at: int, ghost r: Registry)
    requires Reflects(m, objects, r) && n < |objects|
    modifies m, {objects[n]}`control
    ensures Reflects(m, objects, Step(r, Cleanup(n, fallback, at)))
  {
    ReflectsValid(m, objects, r);
    var info := m.Cleanup(objects[n], fallback, at);
  }

  /** One operation on the objects is one step of the registry. */
  method Perform(m: Manager, objects: seq<Session>, op: Op, now: int, ghost r: Registry) returns (grown: seq<Session>)
    requires Reflects(m, objects, r)
    modifies m, (set s | s in objects)`control
    ensures Reflects(m, grown, Step(r, op))
    ensures objects <= grown && forall i :: |objects| <= i < |grown| ==> fresh(grown[i])
  {
    grown := objects;
    match op {
      case Create(id) => grown := PerformCreate(m, objects, id, now, r);
      case Advance(n) => if n < |objects| { PerformAdvance(m, objects, n, r); }
      case Request(n, info) => if n < |objects| { PerformRequest(m, objects, n, info, r); }
      case KillId(id) => PerformKill(m, objects, id, r);
      case Cleanup(n, fallback, at) => if n < |objects| { PerformCleanup(m, objects, n, fallback, at, r); }
    }
  }

  /** A session the registry lists is filed under its id and has no requested close, and conversely. */
  lemma {:induction false} ListedObject(m: Manager, objects: seq<Session>, r: Registry, n: nat)
    requires Reflects(m, objects, r) && n in Listed(r)
    ensures n < |objects| && r.ids[n] in m.sessions && m.sessions[r.ids[n]] == objects[n]
    ensures !objects[n].control.closeRequested
  {
    assert r.ids[n] in m.sessions.Keys;
  }

  lemma {:induction false} FiledObject(m: Manager, objects: seq<Session>, r: Registry, id: string)
    requires Reflects(m, objects, r) && id in m.sessions && !m.sessions[id].control.closeRequested
    ensures id in r.filed && r.filed[id] in Listed(r) && r.filed[id] < |objects|
    ensures m.sessions[id] == objects[r.filed[id]]
  {
    assert id in m.sessions.Keys;
  }

  /** The listing of objects that reflect a registry is, strictly sorted, the sessions the registry lists. */
  method ShowList(m: Manager, objects: seq<Session>, ghost r: Registry) returns (out: seq<Summary>)
    requires Reflects(m, objects, r)
    ensures StrictlySorted(out)
    ensures forall x :: x in out ==> exists n :: n in Listed(r) && n < |objects| && x == SummaryOf(objects[n])
    ensures forall n :: n in Listed(r) ==> n < |objects| && SummaryOf(objects[n]) in out
  {
    ReflectsValid(m, objects, r);
    out := m.List();
    forall x | x in out ensures exists n :: n in Listed(r) && n < |objects| && x == SummaryOf(objects[n]) {
      var id :| id in m.sessions && !m.sessions[id].control.closeRequested && x == SummaryOf(m.sessions[id]);
      FiledObject(m, objects, r, id);
    }
    forall n | n in Listed(r) ensures n < |objects| && SummaryOf(objects[n]) in out {
      ListedObject(m, objects, r, n);
    }
  }

  /** After any history of operations, each at its time, the manager lists, strictly sorted by creation time and id,
      exactly the sessions created, not cleaned up, not close-requested and not displaced. */
  method ListAfter(ops: seq<Op>, times: seq<int>) returns (out: seq<Summary>, objects: seq<Session>)
    requires |times| == |ops|
    ensures StrictlySorted(out) && |objects| == |Ids(ops)|
    ensures forall i :: 0 <= i < |objects| ==> objects[i].id == Ids(ops)[i]
    ensures forall x :: x in out <==>
      exists n: nat :: n < |objects| && n !in CleanedUp(ops) && n !in Requested(ops) && n !in Displaced(ops)
          && x == SummaryOf(objects[n])
  {
    var m := new Manager();
    objects := [];
    assert ops[..0] == [];
    for k := 0 to |ops|
      invariant Reflects(m, objects, Exec(ops[..k]))
      invariant fresh(m) && forall i :: 0 <= i < |objects| ==> fresh(objects[i])
    {
      assert ops[..k + 1][..k] == ops[..k];
      objects := Perform(m, objects, ops[k], times[k], Exec(ops[..k]));
    }
    assert ops[..|ops|] == ops;
    Always(ops);
    ListedExactly(ops);
    out := ShowList(m, objects, Exec(ops));
  }
}

/** Histories of the manager's map on values: which of all sessions ever created are listed. */
module Registry {
  import opened Media
  import opened CloseInfos
  import opened SessionModel

  /** Sessions are numbered in the order of their creation; filed is the manager's map. */
  datatype Registry = Registry(ids: seq<string>, controls: seq<Control>, filed: map<string, nat>)

  datatype Op =
    | Create(id: string)
    | Advance(n: nat)                                  // handshake and activation of session n
    | Request(n: nat, info: CloseInfo)                 // anyone holding session n requests its close
    | KillId(id: string)                               // an administrator kills by id
    | Cleanup(n: nat, fallback: CloseInfo, now: int)   // session n's handler ends

  function Step(r: Registry, op: Op): Registry {
    match op
    case Create(id) => Registry(r.ids + [id], r.controls + [NEW_CONTROL], r.filed[id := |r.ids|])
    case Advance(n) =>
      if n < |r.controls| then r.(controls := r.controls[n := MarkActive(BeginHandshake(r.controls[n]))]) else r
    case Request(n, info) =>
      if n < |r.controls| then r.(controls := r.controls[n := RequestClose(r.controls[n], info).0]) else r
    case KillId(id) =>
      if id in r.filed && r.filed[id] < |r.controls|
      then r.(controls := r.controls[r.filed[id] := RequestClose(r.controls[r.filed[id]], KILLED).0])
      else r
    case Cleanup(n, fallback, now) =>
      if n < |r.controls| && n < |r.ids|
      then r.(controls := r.controls[n := Finalize(r.controls[n], fallback, now).0], filed := r.filed - {r.ids[n]})
      else r
  }

  function Exec(ops: seq<Op>): Registry {
    if ops == [] then Registry([], [], map[]) else Step(Exec(ops[..|ops| - 1]), ops[|ops| - 1])
  }

  /** What the listing shows: filed sessions in a visible life. */
  ghost function Listed(r: Registry): set<nat> {
    set n | 0 <= n < |r.controls| && n < |r.ids| && r.ids[n] in r.filed && r.filed[r.ids[n]] == n
        && Visible(r.controls[n])
  }

  // ----- the same, told by the history alone

  function Ids(ops: seq<Op>): seq<string> {
    if ops == [] then []
    else
      var last := ops[|ops| - 1];
      if last.Create? then Ids(ops[..|ops| - 1]) + [last.id] else Ids(ops[..|ops| - 1])
  }

  /** Sessions whose close was requested, directly or by a kill of the session filed under that id. */
  function Requested(ops: seq<Op>): set<nat> {
    if ops == [] then {}
    else
      var front, last := ops[..|ops| - 1], ops[|ops| - 1];
      match last
      case Request(n, _) => if n < |Ids(front)| then Requested(front) + {n} else Requested(front)
      case KillId(id) =>
        if id in Exec(front).filed then Requested(front) + {Exec(front).filed[id]} else Requested(front)
      case _ => Requested(front)
  }

  function CleanedUp(ops: seq<Op>): set<nat> {
    if ops == [] then {}
    else
      var front, last := ops[..|ops| - 1], ops[|ops| - 1];
      if last.Cleanup? && last.n < |Ids(front)| then CleanedUp(front) + {last.n} else CleanedUp(front)
  }

  /** The other sessions of the same id. */
  function Others(ids: seq<string>, m: nat): set<nat>
    requires m < |ids|
  {
    set n | 0 <= n < |ids| && n != m && ids[n] == ids[m]
  }

  /** Sessions pushed out of the map by another of the same id: by its creation or by its cleanup. */
  function Displaced(ops: seq<Op>): set<nat> {
    if ops == [] then {}
    else
      var front, last := ops[..|ops| - 1], ops[|ops| - 1];
      var ids := Ids(front);
      match last
      case Create(id) => Displaced(front) + set n | 0 <= n < |ids| && ids[n] == id
      case Cleanup(m, _, _) =>
        if m < |ids| then Displaced(front) + Others(ids, m) else Displaced(front)
      case _ => Displaced(front)
  }

  /** The registry agrees with the four folds of its history. */
  ghost predicate Agrees(r: Registry, ids: seq<string>, requested: set<nat>, cleaned: set<nat>, displaced: set<nat>) {
    && r.ids == ids && |r.controls| == |ids|
    && (forall id :: id in r.filed ==> r.filed[id] < |ids| && ids[r.filed[id]] == id)
    && (forall n :: 0 <= n < |ids| ==> Sound(r.controls[n]))
    && (forall n :: 0 <= n < |ids| ==> (r.controls[n].closeRequested <==> n in requested || n in cleaned))
    && (forall n :: 0 <= n < |ids| ==>
        ((ids[n] in r.filed && r.filed[ids[n]] == n) <==> n !in cleaned && n !in displaced))
    && (forall n :: n in requested ==> n < |ids|)
    && (forall n :: n in cleaned ==> n < |ids|)
    && (forall n :: n in displaced ==> n < |ids|)
  }

  lemma {:induction false} Always(ops: seq<Op>)
    ensures Agrees(Exec(ops), Ids(ops), Requested(ops), CleanedUp(ops), Displaced(ops))
    decreases |ops|
  {
    if ops != [] {
      var front, op := ops[..|ops| - 1], ops[|ops| - 1];
      Always(front);
      var r, ids := Exec(front), Ids(front);
      var requested, cleaned, displaced := Requested(front), CleanedUp(front), Displaced(front);
      match op
      case Create(id) => CreateAgrees(r, ids, requested, cleaned, displaced, id);
      case Advance(n) =>
        if n < |ids| {
          ControlAgrees(r, ids, requested, cleaned, displaced, n, MarkActive(BeginHandshake(r.controls[n])), false);
        }
      case Request(n, info) =>
        if n < |ids| {
          ControlAgrees(r, ids, requested, cleaned, displaced, n, RequestClose(r.controls[n], info).0, true);
        }
      case KillId(id) =>
        if id in r.filed {
          ControlAgrees(r, ids, requested, cleaned, displaced, r.filed[id],
              RequestClose(r.controls[r.filed[id]], KILLED).0, true);
        }
      case Cleanup(n, fallback, now) =>
        if n < |ids| { CleanupAgrees(r, ids, requested, cleaned, displaced, op); }
    }
  }

  lemma {:induction false} CreateAgrees(r: Registry, ids: seq<string>, requested: set<nat>, cleaned: set<nat>,
          displaced: set<nat>, id: string)
    requires Agrees(r, ids, requested, cleaned, displaced)
    ensures Agrees(Step(r, Create(id)), ids + [id], requested, cleaned,
                   displaced + set n | 0 <= n < |ids| && ids[n] == id)
  {
  }

  lemma {:induction false} ControlAgrees(r: Registry, ids: seq<string>, requested: set<nat>, cleaned: set<nat>,
          displaced: set<nat>, n: nat, c: Control, requests: bool)
    requires Agrees(r, ids, requested, cleaned, displaced) && n < |ids|
    requires Sound(c) && c.closeRequested == (requests || r.controls[n].closeRequested)
    ensures Agrees(r.(controls := r.controls[n := c]), ids,
                   if requests then requested + {n} else requested, cleaned, displaced)
  {
  }

  lemma {:induction false} CleanupAgrees(r: Registry, ids: seq<string>, requested: set<nat>, cleaned: set<nat>,
          displaced: set<nat>, op: Op)
    requires Agrees(r, ids, requested, cleaned, displaced) && op.Cleanup? && op.n < |ids|
    ensures Agrees(Step(r, op), ids, requested, cleaned + {op.n},
                   displaced + set n | 0 <= n < |ids| && n != op.n && ids[n] == ids[op.n])
  {
  }

  /** For every history: listed are exactly the sessions created, not cleaned up, not close-requested, and not
      displaced by another session of the same id. */
  lemma {:induction false} ListedExactly(ops: seq<Op>)
    ensures forall n: nat :: n in Listed(Exec(ops)) <==>
      n < |Ids(ops)| && n !in CleanedUp(ops) && n !in Requested(ops) && n !in Displaced(ops)
  {
    Always(ops);
  }

  /** A session is listed from its creation on, before it is active. */
  lemma {:induction false} ListedFromCreation(id: string)
    ensures var r := Exec([Create(id)]); 0 in Listed(r) && r.controls[0].life == Connected
  {
    assert [Create(id)][..0] == [];
  }

  predicate DistinctIds(ops: seq<Op>) {
    forall i, j :: 0 <= i < j < |Ids(ops)| ==> Ids(ops)[i] != Ids(ops)[j]
  }

  /** With distinct ids nothing is displaced: listed are exactly the sessions created, not cleaned up and not
      close-requested. */
  lemma {:induction false} ListedWithDistinctIds(ops: seq<Op>)
    requires DistinctIds(ops)
    ensures forall n: nat :: n in Listed(Exec(ops)) <==> n < |Ids(ops)| && n !in CleanedUp(ops) && n !in Requested(ops)
  {
    ListedExactly(ops);
    NothingDisplaced(ops);
  }

  lemma {:induction false} NothingDisplaced(ops: seq<Op>)
    requires DistinctIds(ops)
    ensures Displaced(ops) == {}
    decreases |ops|
  {
    if ops != [] {
      var front, last := ops[..|ops| - 1], ops[|ops| - 1];
      assert |Ids(front)| <= |Ids(ops)| && Ids(front) == Ids(ops)[..|Ids(front)|];
      assert forall i :: 0 <= i < |Ids(front)| ==> Ids(front)[i] == Ids(ops)[i];
      if last.Create? { assert Ids(ops)[|Ids(front)|] == last.id; }
      NothingDisplaced(front);
    }
  }

  lemma {:induction false} CreatedTwice(id: string)
    ensures var ops := [Create(id), Create(id)];
      && Ids(ops) == [id, id] == Exec(ops).ids && |Exec(ops).controls| == 2
      && CleanedUp(ops) == {} && Requested(ops) == {}
  {
    var two, one := [Create(id), Create(id)], [Create(id)];
    assert two[..1] == one && one[..0] == [];
    assert Ids(one) == [id] && Exec(one).ids == [id] && |Exec(one).controls| == 1;
    assert CleanedUp(one) == {} && Requested(one) == {};
  }

  /** With one id used twice, the cleanup of the first session takes the second off the list while it is live. */
  lemma {:induction false} SharedIdHidesALiveSession(id: string, fallback: CloseInfo, now: int)
    ensures var ops := [Create(id), Create(id), Cleanup(0, fallback, now)];
      && 1 < |Ids(ops)| && 1 !in CleanedUp(ops) && 1 !in Requested(ops)
      && 1 !in Listed(Exec(ops))
  {
    var ops := [Create(id), Create(id), Cleanup(0, fallback, now)];
    CreatedTwice(id);
    assert ops[..2] == [Create(id), Create(id)];
  }
}

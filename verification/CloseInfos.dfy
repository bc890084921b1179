/** Close reasons and how successive reasons are merged: the first one wins, field by field. */
module CloseInfos {

  /** Unset stands for the empty string. */
  datatype Cause = Unset | Hangup | Kill | Disconnect | Error

  datatype CloseInfo = CloseInfo(cause: Cause, reason: string, initiator: string, err: string)

  const BLANK := CloseInfo(Unset, "", "", "")

  /** What a kill by id requests. */
  const KILLED := CloseInfo(Kill, "killed", "system", "")

  function Normalize(info: CloseInfo): CloseInfo {
    if info.cause == Unset then info.(cause := Disconnect) else info
  }

  /** Fields of the primary that are set stay; empty ones are filled from the fallback. */
  function Merge(primary: CloseInfo, fallback: CloseInfo): CloseInfo {
    CloseInfo(
      if primary.cause == Unset then fallback.cause else primary.cause,
      if primary.reason == "" then fallback.reason else primary.reason,
      if primary.initiator == "" then fallback.initiator else primary.initiator,
      if primary.err == "" then fallback.err else primary.err)
  }

  /** The left fold of Merge over the submitted infos, only the first of them normalised. */
  function Fold(infos: seq<CloseInfo>): CloseInfo {
    if infos == [] then BLANK
    else if |infos| == 1 then Normalize(infos[0])
    else Merge(Fold(infos[..|infos| - 1]), infos[|infos| - 1])
  }

  lemma {:induction false} MergeAssociative(a: CloseInfo, b: CloseInfo, c: CloseInfo)
    ensures Merge(Merge(a, b), c) == Merge(a, Merge(b, c))
    ensures Merge(a, BLANK) == a && Merge(BLANK, a) == a
    ensures Merge(a, a) == a
  {
  }

  /** The first non-empty string of a list, or the empty string. */
  function FirstSet(values: seq<string>): string {
    if values == [] then "" else if values[0] != "" then values[0] else FirstSet(values[1..])
  }

  function Reasons(infos: seq<CloseInfo>): (values: seq<string>)
    ensures |values| == |infos|
  {
    seq(|infos|, i requires 0 <= i < |infos| => infos[i].reason)
  }

  function Initiators(infos: seq<CloseInfo>): (values: seq<string>)
    ensures |values| == |infos|
  {
    seq(|infos|, i requires 0 <= i < |infos| => infos[i].initiator)
  }

  function Errors(infos: seq<CloseInfo>): (values: seq<string>)
    ensures |values| == |infos|
  {
    seq(|infos|, i requires 0 <= i < |infos| => infos[i].err)
  }

  lemma {:induction false} FirstSetSnoc(values: seq<string>, last: string)
    ensures FirstSet(values + [last]) == if FirstSet(values) == "" then last else FirstSet(values)
    decreases |values|
  {
    if values == [] {
      assert values + [last] == [last];
    } else {
      assert (values + [last])[1..] == values[1..] + [last];
      FirstSetSnoc(values[1..], last);
    }
  }

  /** Field by field the fold is the first value ever set; the cause is that of the first info, an absent one
      counting as a disconnect. */
  lemma {:induction false} FoldIsFirstWins(infos: seq<CloseInfo>)
    requires infos != []
    ensures Fold(infos).cause == (if infos[0].cause == Unset then Disconnect else infos[0].cause)
    ensures Fold(infos).reason == FirstSet(Reasons(infos))
    ensures Fold(infos).initiator == FirstSet(Initiators(infos))
    ensures Fold(infos).err == FirstSet(Errors(infos))
    decreases |infos|
  {
    if |infos| > 1 {
      var front, last := infos[..|infos| - 1], infos[|infos| - 1];
      FoldIsFirstWins(front);
      FirstSetSnoc(Reasons(front), last.reason);
      FirstSetSnoc(Initiators(front), last.initiator);
      FirstSetSnoc(Errors(front), last.err);
      assert Reasons(infos) == Reasons(front) + [last.reason];
      assert Initiators(infos) == Initiators(front) + [last.initiator];
      assert Errors(infos) == Errors(front) + [last.err];
    } else {
      assert Reasons(infos)[1..] == [] && Initiators(infos)[1..] == [] && Errors(infos)[1..] == [];
    }
  }

  /** A set field of the fold is never overwritten by later infos. */
  lemma {:induction false} FoldKeepsSetFields(infos: seq<CloseInfo>, more: seq<CloseInfo>)
    requires infos != []
    ensures Fold(infos + more).cause == Fold(infos).cause
    ensures Fold(infos).reason != "" ==> Fold(infos + more).reason == Fold(infos).reason
    ensures Fold(infos).initiator != "" ==> Fold(infos + more).initiator == Fold(infos).initiator
    ensures Fold(infos).err != "" ==> Fold(infos + more).err == Fold(infos).err
    decreases |more|
  {
    FoldIsFirstWins(infos);
    if more == [] {
      assert infos + more == infos;
    } else {
      var front := more[..|more| - 1];
      FoldKeepsSetFields(infos, front);
      assert (infos + more)[..|infos + more| - 1] == infos + front;
    }
  }
}

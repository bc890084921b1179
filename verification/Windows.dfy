/** Sliding windows over timed items: the audio buffers and the activity windows of the
    voice activity detector share one theory. */
module Windows {
  import opened Media

  datatype Timed<T> = Timed(item: T, ms: int)

  type Audio = seq<Timed<Payload>>

  type Activity = seq<Timed<bool>>

  function Total<T>(w: seq<Timed<T>>): int {
    if w == [] then 0 else w[0].ms + Total(w[1..])
  }

  /** Milliseconds of the entries marked active. */
  function ActiveMs(w: Activity): int {
    if w == [] then 0 else (if w[0].item then w[0].ms else 0) + ActiveMs(w[1..])
  }

  predicate Positive<T>(w: seq<Timed<T>>) {
    forall i :: 0 <= i < |w| ==> w[i].ms > 0
  }

  function Items<T>(w: seq<Timed<T>>): (items: seq<T>)
    ensures |items| == |w|
    ensures forall i :: 0 <= i < |w| ==> items[i] == w[i].item
  {
    seq(|w|, i requires 0 <= i < |w| => w[i].item)
  }

  /** Evicts from the front until the total is within the limit; a limit of zero or less means no limit. */
  function Fit<T>(w: seq<Timed<T>>, limit: int): seq<Timed<T>> {
    if limit <= 0 || Total(w) <= limit then w else Fit(w[1..], limit)
  }

  /** One push: items without duration are ignored, eviction follows at once. */
  function Pushed<T>(w: seq<Timed<T>>, item: T, ms: int, limit: int): seq<Timed<T>> {
    if ms <= 0 then w else Fit(w + [Timed(item, ms)], limit)
  }

  /** The shortest prefix that lasts at least maxMs, or everything. */
  function Lead<T>(w: seq<Timed<T>>, maxMs: int): seq<Timed<T>> {
    if w == [] || maxMs <= 0 then []
    else [w[0]] + Lead(w[1..], maxMs - w[0].ms)
  }

  // ----- totals

  lemma {:induction false} TotalConcat<T>(a: seq<Timed<T>>, b: seq<Timed<T>>)
    ensures Total(a + b) == Total(a) + Total(b)
  {
    if a == [] {
      assert a + b == b;
    } else {
      assert (a + b)[1..] == a[1..] + b;
      TotalConcat(a[1..], b);
    }
  }

  lemma {:induction false} TotalNonnegative<T>(w: seq<Timed<T>>)
    requires Positive(w)
    ensures Total(w) >= |w|
  {
    if w != [] { TotalNonnegative(w[1..]); }
  }

  lemma {:induction false} ActiveConcat(a: Activity, b: Activity)
    ensures ActiveMs(a + b) == ActiveMs(a) + ActiveMs(b)
  {
    if a == [] {
      assert a + b == b;
    } else {
      assert (a + b)[1..] == a[1..] + b;
      ActiveConcat(a[1..], b);
    }
  }

  lemma {:induction false} ActiveWithinTotal(w: Activity)
    requires Positive(w)
    ensures 0 <= ActiveMs(w) <= Total(w)
  {
    if w != [] { ActiveWithinTotal(w[1..]); }
  }

  // ----- a window is the longest suffix of its history that fits

  lemma {:induction false} FitIsSuffix<T>(w: seq<Timed<T>>, limit: int)
    ensures |Fit(w, limit)| <= |w| && Fit(w, limit) == w[|w| - |Fit(w, limit)|..]
    decreases |w|
  {
    if !(limit <= 0 || Total(w) <= limit) {
      FitIsSuffix(w[1..], limit);
    }
  }

  /** The window holds a suffix of what was pushed, within the limit, and no longer suffix would fit. */
  lemma {:induction false} FitIsLongest<T>(w: seq<Timed<T>>, limit: int, n: nat)
    requires Positive(w) && limit > 0
    requires n <= |w| && Total(w[n..]) <= limit
    ensures Total(Fit(w, limit)) <= limit
    ensures |w| - n <= |Fit(w, limit)|
    decreases |w|
  {
    if Total(w) > limit {
      assert n > 0 by { assert w[0..] == w; }
      assert w[1..][n - 1..] == w[n..];
      FitIsLongest(w[1..], limit, n - 1);
    }
  }

  lemma {:induction false} FitTotal<T>(w: seq<Timed<T>>, limit: int)
    requires limit > 0
    ensures Total(Fit(w, limit)) <= limit
    decreases |w|
  {
    if Total(w) > limit { FitTotal(w[1..], limit); }
  }

  lemma {:induction false} FitPositive<T>(w: seq<Timed<T>>, limit: int)
    requires Positive(w)
    ensures Positive(Fit(w, limit))
  {
    FitIsSuffix(w, limit);
  }

  /** Evicting early loses nothing: fitting a fitted window with more behind it equals fitting the whole. */
  lemma {:induction false} FitThenFit<T>(w: seq<Timed<T>>, more: seq<Timed<T>>, limit: int)
    requires Positive(more)
    ensures Fit(Fit(w, limit) + more, limit) == Fit(w + more, limit)
    decreases |w|
  {
    if !(limit <= 0 || Total(w) <= limit) {
      FitThenFit(w[1..], more, limit);
      TotalConcat(w, more);
      TotalNonnegative(more);
      assert (w + more)[1..] == w[1..] + more;
    }
  }

  /** Pushes a whole history one by one into a window. */
  function PushAll<T>(w: seq<Timed<T>>, history: seq<Timed<T>>, limit: int): seq<Timed<T>>
    decreases |history|
  {
    if history == [] then w
    else PushAll(Pushed(w, history[0].item, history[0].ms, limit), history[1..], limit)
  }

  /** Any history of timed pushes leaves the longest fitting suffix of the old contents and that history;
      from a reset window this is the longest fitting suffix of the history. */
  lemma {:induction false} PushAllKeepsLongestSuffix<T>(w: seq<Timed<T>>, history: seq<Timed<T>>, limit: int)
    requires Positive(history) && Fit(w, limit) == w
    ensures PushAll(w, history, limit) == Fit(w + history, limit)
    decreases |history|
  {
    if history == [] {
      assert w + history == w;
    } else {
      var next := Pushed(w, history[0].item, history[0].ms, limit);
      assert history[..1] == [Timed(history[0].item, history[0].ms)];
      FitOfFit(w + history[..1], limit);
      PushAllKeepsLongestSuffix(next, history[1..], limit);
      FitThenFit(w + history[..1], history[1..], limit);
      assert w + history[..1] + history[1..] == w + history;
    }
  }

  lemma {:induction false} FitOfFit<T>(w: seq<Timed<T>>, limit: int)
    ensures Fit(Fit(w, limit), limit) == Fit(w, limit)
    decreases |w|
  {
    if !(limit <= 0 || Total(w) <= limit) { FitOfFit(w[1..], limit); }
  }

  // ----- exact fill with a constant frame length

  predicate Uniform<T>(w: seq<Timed<T>>, d: int) {
    forall i :: 0 <= i < |w| ==> w[i].ms == d
  }

  lemma {:induction false} UniformTotal<T>(w: seq<Timed<T>>, d: int)
    requires Uniform(w, d)
    ensures Total(w) == d * |w|
  {
    if w != [] { UniformTotal(w[1..], d); }
  }

  /** After n pushes of d milliseconds a reset window holds the last min(n, limit / d) of them. */
  lemma {:induction false} ExactFill<T>(history: seq<Timed<T>>, d: int, limit: int)
    requires d > 0 && limit > 0 && Uniform(history, d)
    ensures |PushAll([], history, limit)| == if |history| <= limit / d then |history| else limit / d
    ensures Total(PushAll([], history, limit)) == d * |PushAll([], history, limit)|
  {
    PushAllKeepsLongestSuffix([], history, limit);
    assert [] + history == history;
    UniformFit(history, d, limit);
  }

  lemma {:induction false} UniformFit<T>(w: seq<Timed<T>>, d: int, limit: int)
    requires d > 0 && limit > 0 && Uniform(w, d)
    ensures Uniform(Fit(w, limit), d)
    ensures |Fit(w, limit)| == if |w| <= limit / d then |w| else limit / d
    ensures Total(Fit(w, limit)) == d * |Fit(w, limit)|
    decreases |w|
  {
    UniformTotal(w, d);
    WithinQuotient(|w|, d, limit);
    if Total(w) > limit { UniformFit(w[1..], d, limit); }
  }

  lemma {:induction false} WithinQuotient(n: nat, d: int, limit: int)
    requires d > 0 && limit > 0
    ensures d * n <= limit <==> n <= limit / d
  {
    var q := limit / d;
    assert d * q <= limit < d * (q + 1);
    if n <= q { assert d * n <= d * q; } else { assert d * n >= d * (q + 1); }
  }

  lemma {:induction false} FillsExactly(n: nat, d: int, limit: int)
    requires d > 0 && limit > 0 && n <= limit / d
    ensures d * n >= limit <==> limit % d == 0 && n == limit / d
  {
    var q := limit / d;
    assert limit == d * q + limit % d;
    if n < q { assert d * n <= d * (q - 1) == d * q - d; }
  }

  /** A window fed with frames of d milliseconds can be exactly full iff d divides the limit. */
  lemma {:induction false} FullIffDivides<T>(history: seq<Timed<T>>, d: int, limit: int)
    requires d > 0 && limit > 0 && Uniform(history, d)
    ensures Total(PushAll([], history, limit)) >= limit <==> limit % d == 0 && |history| >= limit / d
  {
    ExactFill(history, d, limit);
    var n := |PushAll([], history, limit)|;
    FillsExactly(n, d, limit);
  }

  // ----- the padding kept at the end of a segment

  /** Lead is a prefix that reaches maxMs, and leaving out its last item would not. */
  lemma {:induction false} LeadIsShortestPrefix<T>(w: seq<Timed<T>>, maxMs: int)
    requires Positive(w) && maxMs > 0
    ensures var k := |Lead(w, maxMs)|;
      && k <= |w| && Lead(w, maxMs) == w[..k]
      && (k == |w| || Total(w[..k]) >= maxMs)
      && (k > 0 ==> Total(w[..k - 1]) < maxMs)
      && (w != [] ==> k > 0)
    decreases |w|
  {
    if w != [] {
      var rest := Lead(w[1..], maxMs - w[0].ms);
      var k := |Lead(w, maxMs)|;
      if maxMs - w[0].ms > 0 {
        LeadIsShortestPrefix(w[1..], maxMs - w[0].ms);
        assert k == |rest| + 1;
        assert w[..k][1..] == w[1..][..k - 1];
        if k > 1 { assert w[..k - 1][1..] == w[1..][..k - 2]; }
      } else {
        assert w[..1][1..] == [];
      }
    }
  }

  // ----- the two window classes

  function Zip(frames: seq<Payload>, lengths: seq<int>): (w: Audio) {
    var n := if |frames| <= |lengths| then |frames| else |lengths|;
    seq(n, i requires 0 <= i < n => Timed(frames[i], lengths[i]))
  }

  class BufferedAudio {
    var frames: seq<Payload>
    var lengths: seq<int>
    var totalMs: int

    ghost predicate Valid()
      reads this
    {
      && |frames| == |lengths|
      && (forall i :: 0 <= i < |frames| ==> frames[i] != [])
      && Positive(Contents())
      && totalMs == Total(Contents())
    }

    function Contents(): (w: Audio)
      reads this
    {
      Zip(frames, lengths)
    }

    constructor ()
      ensures Valid() && Contents() == []
    {
      frames, lengths, totalMs := [], [], 0;
    }

    method Push(payload: Payload, durationMs: int, limitMs: int)
      requires Valid()
      modifies this
      ensures Valid()
      ensures Contents() == if payload == [] then old(Contents())
          else Pushed(old(Contents()), payload, durationMs, limitMs)
    {
      if |payload| == 0 || durationMs <= 0 {
        return;
      }
      ghost var grown := Contents() + [Timed(payload, durationMs)];
      TotalConcat(Contents(), [Timed(payload, durationMs)]);
      frames := frames + [payload];
      lengths := lengths + [durationMs];
      totalMs := totalMs + durationMs;
      assert Contents() == grown;
      if limitMs <= 0 {
        return;
      }
      while totalMs > limitMs && |frames| > 0
        invariant Valid()
        invariant Fit(Contents(), limitMs) == Fit(grown, limitMs)
        decreases |frames|
      {
        ghost var before := Contents();
        totalMs := totalMs - lengths[0];
        frames := frames[1..];
        lengths := lengths[1..];
        assert Contents() == before[1..];
      }
    }

    method Reset()
      modifies this
      ensures Valid() && Contents() == []
    {
      frames, lengths, totalMs := [], [], 0;
    }

    /** Pushes the frames of the other buffer one by one. */
    method Append(other: BufferedAudio, limitMs: int)
      requires Valid() && other.Valid() && other != this
      modifies this
      ensures Valid()
      ensures Contents() == PushAll(old(Contents()), other.Contents(), limitMs)
    {
      ghost var all := other.Contents();
      for i := 0 to |other.frames|
        invariant Valid() && other.Valid() && other.Contents() == all
        invariant other.frames == old(other.frames)
        invariant PushAll(Contents(), all[i..], limitMs) == PushAll(old(Contents()), all, limitMs)
      {
        assert all[i..][1..] == all[i + 1..];
        Push(other.frames[i], other.lengths[i], limitMs);
      }
      assert all[|other.frames|..] == [];
    }

    method Packets(trackID: string) returns (packets: seq<Packet>)
      requires Valid()
      ensures packets == Packed(trackID, Contents())
    {
      packets := [];
      for i := 0 to |frames|
        invariant packets == Packed(trackID, Contents()[..i])
      {
        packets := packets + [AudioPacket(trackID, frames[i])];
      }
      assert Contents()[..|frames|] == Contents();
    }

    method PrefixPackets(trackID: string, maxMs: int) returns (packets: seq<Packet>)
      requires Valid()
      ensures packets == Packed(trackID, Lead(Contents(), maxMs))
    {
      if maxMs <= 0 {
        return [];
      }
      packets := [];
      var usedMs := 0;
      ghost var w := Contents();
      ghost var goal := Packed(trackID, Lead(w, maxMs));
      for i := 0 to |frames|
        invariant usedMs < maxMs
        invariant goal == packets + Packed(trackID, Lead(w[i..], maxMs - usedMs))
      {
        LeadFront(trackID, w, i, maxMs - usedMs, packets);
        packets := packets + [AudioPacket(trackID, frames[i])];
        usedMs := usedMs + lengths[i];
        if usedMs >= maxMs {
          break;
        }
      }
      assert goal == packets;
    }

    method Bytes() returns (joined: Payload)
      requires Valid()
      ensures joined == Joined(Contents())
    {
      joined := [];
      for i := 0 to |frames|
        invariant joined == Joined(Contents()[..i])
      {
        assert Contents()[..i + 1][..i] == Contents()[..i];
        joined := joined + frames[i];
      }
      assert Contents()[..|frames|] == Contents();
    }
  }

  /** The packets a buffer turns into, all under one track. */
  function Packed(trackID: string, w: Audio): (packets: seq<Packet>)
    ensures |packets| == |w|
  {
    seq(|w|, i requires 0 <= i < |w| => AudioPacket(trackID, w[i].item))
  }

  lemma {:induction false} PackedConcat(trackID: string, a: Audio, b: Audio)
    ensures Packed(trackID, a + b) == Packed(trackID, a) + Packed(trackID, b)
  {
  }

  lemma {:induction false} LeadFront(trackID: string, w: Audio, i: nat, maxMs: int, packets: seq<Packet>)
    requires i < |w| && maxMs > 0
    ensures packets + Packed(trackID, Lead(w[i..], maxMs))
         == packets + [AudioPacket(trackID, w[i].item)] + Packed(trackID, Lead(w[i + 1..], maxMs - w[i].ms))
  {
    assert w[i..][1..] == w[i + 1..];
    PackedConcat(trackID, [w[i]], Lead(w[i + 1..], maxMs - w[i].ms));
    assert Packed(trackID, [w[i]]) == [AudioPacket(trackID, w[i].item)];
  }

  function Joined(w: Audio): Payload {
    if w == [] then [] else Joined(w[..|w| - 1]) + w[|w| - 1].item
  }

  class ActivityWindow {
    var entries: Activity
    var totalMs: int
    var activeMs: int

    ghost predicate Valid()
      reads this
    {
      && Positive(entries)
      && totalMs == Total(entries)
      && activeMs == ActiveMs(entries)
    }

    constructor ()
      ensures Valid() && entries == []
    {
      entries, totalMs, activeMs := [], 0, 0;
    }

    method Push(active: bool, durationMs: int, limitMs: int)
      requires Valid()
      modifies this
      ensures Valid()
      ensures entries == Pushed(old(entries), active, durationMs, limitMs)
    {
      if durationMs <= 0 {
        return;
      }
      TotalConcat(entries, [Timed(active, durationMs)]);
      ActiveConcat(entries, [Timed(active, durationMs)]);
      entries := entries + [Timed(active, durationMs)];
      totalMs := totalMs + durationMs;
      if active {
        activeMs := activeMs + durationMs;
      }
      if limitMs <= 0 {
        return;
      }
      ghost var grown := entries;
      while totalMs > limitMs && |entries| > 0
        invariant Valid()
        invariant Fit(entries, limitMs) == Fit(grown, limitMs)
        decreases |entries|
      {
        var entry := entries[0];
        totalMs := totalMs - entry.ms;
        if entry.item {
          activeMs := activeMs - entry.ms;
        }
        entries := entries[1..];
      }
    }

    method Reset()
      modifies this
      ensures Valid() && entries == []
    {
      entries, totalMs, activeMs := [], 0, 0;
    }

    /** Overwrites this window with a copy of the other. */
    method CopyFrom(other: ActivityWindow)
      requires other.Valid()
      modifies this
      ensures Valid() && entries == old(other.entries)
    {
      entries, totalMs, activeMs := other.entries, other.totalMs, other.activeMs;
    }
  }
}

/**
 The per-channel display history kept by the plot manager: one list of samples
 per channel, each bounded by MaxDataPoints, oldest sample evicted first.
 */
module SeriesBuffer {

  /** MAX_DATA_POINTS: how many recent samples each channel keeps for display. */
  const MaxDataPoints: nat := 100

  /** Samples are never computed on in this part of the program; a real stands for a float. */
  type Sample = real

  /** The last `n` elements of `s`, or all of `s` when it is shorter: the
      reference definition of what a bounded history should hold. */
  function LastN<T>(s: seq<T>, n: nat): (r: seq<T>)
    ensures |r| == if |s| < n then |s| else n
    ensures forall k :: 0 <= k < |r| ==> r[k] == s[|s| - |r| + k]
  {
    if |s| <= n then s else s[|s| - n..]
  }

  /** A suffix of `s` that is at least as long as LastN(s, n) has the same last `n` elements. */
  lemma LastNOfLongSuffix<T>(s: seq<T>, d: nat, n: nat)
    requires d <= |s|
    requires |s| - d >= n || d == 0
    ensures LastN(s[d..], n) == LastN(s, n)
  {
    if d == 0 {
      assert s[d..] == s;
    } else {
      assert s[d..][|s| - d - n..] == s[|s| - n..];
    }
  }

  /** Concatenation regrouped; stated once so that proofs about sequences of
      rows need not rediscover it element by element. */
  lemma ConcatAssoc<T>(a: seq<T>, b: seq<T>, c: seq<T>)
    ensures a + b + c == a + (b + c)
  {
  }

  /** Appending the first element and then the rest is appending the whole
      sequence; stated once so that induction steps over `values[1..]` need
      not rediscover it element by element. */
  lemma AppendHeadThenTail<T>(a: seq<T>, values: seq<T>)
    requires |values| > 0
    ensures a + [values[0]] + values[1..] == a + values
  {
    assert [values[0]] + values[1..] == values;
  }

  /** Trimming to the last `n` elements before appending more does not change
      which `n` elements are last afterwards. */
  lemma LastNAbsorb<T>(a: seq<T>, b: seq<T>, n: nat)
    ensures LastN(LastN(a, n) + b, n) == LastN(a + b, n)
  {
    if |a| > n {
      var d := |a| - n;
      assert LastN(a, n) + b == (a + b)[d..];
      LastNOfLongSuffix(a + b, d, n);
    }
  }

  /** The body of `update_data` for a channel in range: append, then drop the
      oldest sample when the list has grown past MaxDataPoints. */
  function Push(buffer: seq<Sample>, value: Sample): (r: seq<Sample>)
    ensures |buffer| <= MaxDataPoints ==> |r| <= MaxDataPoints
    ensures |buffer| <= MaxDataPoints ==> r == LastN(buffer + [value], MaxDataPoints)
    ensures |r| > 0 && r[|r| - 1] == value
    ensures |r| == |buffer| + 1 || |r| == |buffer|
    ensures forall k :: 0 <= k < |r| ==> r[k] == (buffer + [value])[|buffer| + 1 - |r| + k]
  {
    var appended := buffer + [value];
    if |appended| > MaxDataPoints then appended[1..] else appended
  }

  /** Pushing the values one by one, in order. */
  function PushAll(buffer: seq<Sample>, values: seq<Sample>): (r: seq<Sample>)
    decreases |values|
  {
    if |values| == 0 then buffer else PushAll(Push(buffer, values[0]), values[1..])
  }

  /** A bounded history holds exactly the last MaxDataPoints values ever put
      into it, in insertion order, however many pushes there were. */
  lemma {:induction false} PushAllKeepsLast(buffer: seq<Sample>, values: seq<Sample>)
    requires |buffer| <= MaxDataPoints
    ensures PushAll(buffer, values) == LastN(buffer + values, MaxDataPoints)
    ensures |PushAll(buffer, values)| <= MaxDataPoints
    decreases |values|
  {
    if |values| == 0 {
      assert buffer + values == buffer;
    } else {
      var next := Push(buffer, values[0]);
      PushAllKeepsLast(next, values[1..]);
      LastNAbsorb(buffer + [values[0]], values[1..], MaxDataPoints);
      AppendHeadThenTail(buffer, values);
    }
  }

  /** Starting from an empty history and pushing MaxDataPoints + k values
      (k >= 1) leaves exactly MaxDataPoints values: the most recent ones. */
  lemma OverflowKeepsNewest(values: seq<Sample>)
    requires |values| > MaxDataPoints
    ensures |PushAll([], values)| == MaxDataPoints
    ensures PushAll([], values) == values[|values| - MaxDataPoints..]
  {
    PushAllKeepsLast([], values);
    assert [] + values == values;
  }

  /** The plot manager's buffer state: the channel count it was built with and one list per channel. */
  datatype PlotBuffers = PlotBuffers(channelCount: int, buffers: seq<seq<Sample>>)

  /** Number of lists `range(channel_count)` produces. */
  function ListCount(channelCount: int): (n: nat)
  {
    if channelCount < 0 then 0 else channelCount
  }

  /** What every reachable plot manager satisfies: one list per channel, none over capacity. */
  predicate Valid(p: PlotBuffers)
  {
    && |p.buffers| == ListCount(p.channelCount)
    && forall c :: 0 <= c < |p.buffers| ==> |p.buffers[c]| <= MaxDataPoints
  }

  /** `PlotManager.__init__`: one empty list per channel. */
  function Init(channelCount: int): (p: PlotBuffers)
    ensures Valid(p)
    ensures p.channelCount == channelCount
    ensures channelCount >= 0 ==> |p.buffers| == channelCount
    ensures channelCount < 0 ==> p.buffers == []
    ensures forall c :: 0 <= c < |p.buffers| ==> p.buffers[c] == []
  {
    PlotBuffers(channelCount, seq(ListCount(channelCount), _ => []))
  }

  /** `PlotManager.update_data`: push `value` onto channel `channelIndex`; an
      index outside [0, channelCount) is ignored. */
  function UpdateData(p: PlotBuffers, channelIndex: int, value: Sample): (r: PlotBuffers)
    requires Valid(p)
    ensures Valid(r)
    ensures r.channelCount == p.channelCount
    ensures !(0 <= channelIndex < p.channelCount) ==> r == p
    ensures 0 <= channelIndex < p.channelCount ==>
              r.buffers == p.buffers[channelIndex := LastN(p.buffers[channelIndex] + [value], MaxDataPoints)]
  {
    if 0 <= channelIndex < p.channelCount then
      p.(buffers := p.buffers[channelIndex := Push(p.buffers[channelIndex], value)])
    else
      p
  }

  /** One `update_data(channel_index, value)` call. */
  datatype Update = Update(channel: int, value: Sample)

  /** A sequence of `update_data` calls, applied in order. */
  function ApplyUpdates(p: PlotBuffers, updates: seq<Update>): (r: PlotBuffers)
    requires Valid(p)
    ensures Valid(r)
    ensures r.channelCount == p.channelCount
    decreases |updates|
  {
    if |updates| == 0 then p
    else ApplyUpdates(UpdateData(p, updates[0].channel, updates[0].value), updates[1..])
  }

  /** The values, in call order, of the updates addressed to `channel`. */
  function PushedTo(updates: seq<Update>, channel: int): (values: seq<Sample>)
    decreases |updates|
  {
    if |updates| == 0 then []
    else (if updates[0].channel == channel then [updates[0].value] else [])
         + PushedTo(updates[1..], channel)
  }

  /** After any sequence of `update_data` calls, each channel's list is the
      last MaxDataPoints of (what it held) followed by the values addressed to
      that channel, in call order; calls addressed elsewhere or out of range
      do not touch it. */
  lemma {:induction false} ApplyUpdatesPerChannel(p: PlotBuffers, updates: seq<Update>, c: int)
    requires Valid(p)
    requires 0 <= c < |p.buffers|
    ensures 0 <= c < |ApplyUpdates(p, updates).buffers|
    ensures ApplyUpdates(p, updates).buffers[c] == LastN(p.buffers[c] + PushedTo(updates, c), MaxDataPoints)
    decreases |updates|
  {
    if |updates| == 0 {
      assert p.buffers[c] + [] == p.buffers[c];
    } else {
      var u := updates[0];
      var p1 := UpdateData(p, u.channel, u.value);
      ApplyUpdatesPerChannel(p1, updates[1..], c);
      var before := p.buffers[c];
      var rest := PushedTo(updates[1..], c);
      if u.channel == c {
        assert p1.buffers[c] == LastN(before + [u.value], MaxDataPoints);
        assert PushedTo(updates, c) == [u.value] + rest;
        LastNAbsorb(before + [u.value], rest, MaxDataPoints);
        ConcatAssoc(before, [u.value], rest);
      } else {
        assert PushedTo(updates, c) == rest;
        assert p1.buffers[c] == before;
      }
    }
  }

  /** From freshly built buffers: every channel holds the last
      min(n, MaxDataPoints) of the n values pushed to it. */
  lemma FreshBuffersKeepLast(channelCount: int, updates: seq<Update>, c: int)
    requires 0 <= c < channelCount
    ensures ApplyUpdates(Init(channelCount), updates).buffers[c] == LastN(PushedTo(updates, c), MaxDataPoints)
  {
    var p := Init(channelCount);
    ApplyUpdatesPerChannel(p, updates, c);
    assert p.buffers[c] + PushedTo(updates, c) == PushedTo(updates, c);
  }
}

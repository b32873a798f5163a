/** One turn's streamed text and its reconciliation with the final body (app/src/shared/response-buffer.ts). */
module ResponseBuffer {
  import opened Wrappers
  import Text

  datatype Channel = Answer | Thinking

  datatype Body = Delta(channel: Channel, delta: string) | End

  datatype Chunk = Chunk(turnId: string, seqNo: int, body: Body)

  datatype AcceptedDelta = AcceptedDelta(channel: Channel, delta: string)

  // ---------------------------------------------------------------- the frames that count

  /** Frame i is this turn's and numbered above every earlier one of this turn. */
  ghost predicate RecordHigh(turn: string, cs: seq<Chunk>, i: nat) {
    && i < |cs| && cs[i].turnId == turn && cs[i].seqNo > -1
    && forall j :: 0 <= j < i && cs[j].turnId == turn ==> cs[j].seqNo < cs[i].seqNo
  }

  ghost predicate Ends(turn: string, cs: seq<Chunk>, i: nat) {
    RecordHigh(turn, cs, i) && cs[i].body.End?
  }

  ghost predicate EndedBy(turn: string, cs: seq<Chunk>, n: nat) {
    exists i :: 0 <= i < n && Ends(turn, cs, i)
  }

  /** Frame i adds text: a record high before the first end. */
  ghost predicate Adds(turn: string, cs: seq<Chunk>, i: nat) {
    RecordHigh(turn, cs, i) && cs[i].body.Delta? && !EndedBy(turn, cs, i)
  }

  /** The deltas of one channel among the first n frames. */
  ghost function Collected(turn: string, cs: seq<Chunk>, n: nat, channel: Channel): string
    requires n <= |cs|
  {
    if n == 0 then ""
    else
      var counts := Adds(turn, cs, n - 1) && cs[n - 1].body.channel == channel;
      Collected(turn, cs, n - 1, channel) + if counts then cs[n - 1].body.delta else ""
  }

  // ---------------------------------------------------------------- the buffer

  datatype State = State(text: string, thinking: string, ended: bool, lastSeq: int)

  const INITIAL := State("", "", false, -1)

  function Accepted(turn: string, s: State, c: Chunk): State {
    if c.turnId != turn || s.ended || c.seqNo <= s.lastSeq then s
    else match c.body
         case End => s.(lastSeq := c.seqNo, ended := true)
         case Delta(Thinking, d) => s.(lastSeq := c.seqNo, thinking := s.thinking + d)
         case Delta(Answer, d) => s.(lastSeq := c.seqNo, text := s.text + d)
  }

  function After(turn: string, s: State, cs: seq<Chunk>): State {
    if cs == [] then s else Accepted(turn, After(turn, s, cs[..|cs| - 1]), cs[|cs| - 1])
  }

  /** `lastSeq` bounds this turn's frames until the end. */
  ghost predicate Reflects(turn: string, cs: seq<Chunk>, s: State) {
    && s.text == Collected(turn, cs, |cs|, Answer)
    && s.thinking == Collected(turn, cs, |cs|, Thinking)
    && (s.ended <==> EndedBy(turn, cs, |cs|))
    && (!s.ended ==> IsLast(turn, cs, s.lastSeq))
  }

  ghost predicate IsLast(turn: string, cs: seq<Chunk>, last: int) {
    && last >= -1
    && (forall i :: 0 <= i < |cs| && cs[i].turnId == turn ==> cs[i].seqNo <= last)
    && (last == -1 || exists i :: 0 <= i < |cs| && cs[i].turnId == turn && cs[i].seqNo == last)
  }

  lemma PrefixRecordHigh(turn: string, cs: seq<Chunk>, c: Chunk, i: nat)
    requires i < |cs|
    ensures RecordHigh(turn, cs + [c], i) <==> RecordHigh(turn, cs, i)
    ensures Ends(turn, cs + [c], i) <==> Ends(turn, cs, i)
  {
    var more := cs + [c];
    assert forall j :: 0 <= j <= i ==> more[j] == cs[j];
  }

  lemma PrefixEnded(turn: string, cs: seq<Chunk>, c: Chunk, n: nat)
    requires n <= |cs|
    ensures EndedBy(turn, cs + [c], n) <==> EndedBy(turn, cs, n)
  {
    forall i | 0 <= i < n ensures Ends(turn, cs + [c], i) <==> Ends(turn, cs, i) { PrefixRecordHigh(turn, cs, c, i); }
  }

  lemma {:induction false} PrefixCollected(turn: string, cs: seq<Chunk>, c: Chunk, n: nat, channel: Channel)
    requires n <= |cs|
    ensures Collected(turn, cs + [c], n, channel) == Collected(turn, cs, n, channel)
  {
    if n > 0 {
      PrefixCollected(turn, cs, c, n - 1, channel);
      PrefixRecordHigh(turn, cs, c, n - 1);
      PrefixEnded(turn, cs, c, n - 1);
    }
  }

  lemma EndedOneMore(turn: string, cs: seq<Chunk>, c: Chunk)
    ensures EndedBy(turn, cs + [c], |cs| + 1) <==> EndedBy(turn, cs, |cs|) || Ends(turn, cs + [c], |cs|)
  {
    PrefixEnded(turn, cs, c, |cs|);
    if EndedBy(turn, cs + [c], |cs| + 1) {
      var i :| 0 <= i < |cs| + 1 && Ends(turn, cs + [c], i);
      assert i < |cs| ==> EndedBy(turn, cs + [c], |cs|);
    }
    if EndedBy(turn, cs, |cs|) {
      var i :| 0 <= i < |cs| && Ends(turn, cs + [c], i);
    }
  }

  /** Being accepted is being a record high. */
  lemma AcceptsRecordHighs(turn: string, cs: seq<Chunk>, c: Chunk, last: int)
    requires IsLast(turn, cs, last)
    ensures c.turnId == turn && c.seqNo > last <==> RecordHigh(turn, cs + [c], |cs|)
    ensures IsLast(turn, cs + [c], if c.turnId == turn && c.seqNo > last then c.seqNo else last)
  {
    var more := cs + [c];
    assert more[|cs|] == c && forall j :: 0 <= j < |cs| ==> more[j] == cs[j];
    if last != -1 {
      var i :| 0 <= i < |cs| && cs[i].turnId == turn && cs[i].seqNo == last;
      assert more[i].seqNo == last;
    }
  }

  lemma OneMoreFrame(turn: string, cs: seq<Chunk>, s: State, c: Chunk)
    requires Reflects(turn, cs, s)
    ensures Reflects(turn, cs + [c], Accepted(turn, s, c))
  {
    var more := cs + [c];
    PrefixCollected(turn, cs, c, |cs|, Answer);
    PrefixCollected(turn, cs, c, |cs|, Thinking);
    PrefixEnded(turn, cs, c, |cs|);
    EndedOneMore(turn, cs, c);
    if !s.ended { AcceptsRecordHighs(turn, cs, c, s.lastSeq); }
  }

  /** The snapshot is the fold of this turn's record-high frames up to the first end. */
  lemma {:induction false} SnapshotIsTheFold(turn: string, cs: seq<Chunk>)
    ensures Reflects(turn, cs, After(turn, INITIAL, cs))
  {
    if cs != [] {
      var n := |cs| - 1;
      SnapshotIsTheFold(turn, cs[..n]);
      OneMoreFrame(turn, cs[..n], After(turn, INITIAL, cs[..n]), cs[n]);
      assert cs == cs[..n] + [cs[n]];
    }
  }

  lemma OneMore(turn: string, s: State, cs: seq<Chunk>, c: Chunk)
    ensures After(turn, s, cs + [c]) == Accepted(turn, After(turn, s, cs), c)
  {
    assert (cs + [c])[..|cs|] == cs;
  }

  // ---------------------------------------------------------------- replayed frames

  /** The stream without the frames that repeat an earlier one. */
  function Firsts(cs: seq<Chunk>): seq<Chunk> {
    if cs == [] then []
    else
      var before := cs[..|cs| - 1];
      if cs[|cs| - 1] in before then Firsts(before) else Firsts(before) + [cs[|cs| - 1]]
  }

  /** A frame already processed is ignored. */
  lemma {:induction false} SeenFramesAreIgnored(turn: string, s: State, cs: seq<Chunk>, c: Chunk)
    requires c in cs
    ensures Accepted(turn, After(turn, s, cs), c) == After(turn, s, cs)
  {
    var n := |cs| - 1;
    if c in cs[..n] {
      SeenFramesAreIgnored(turn, s, cs[..n], c);
    } else {
      assert cs == cs[..n] + [cs[n]];
      assert c == cs[n];
    }
  }

  /** Copies of processed frames anywhere later change nothing. */
  lemma {:induction false} ReplaysChangeNothing(turn: string, s: State, cs: seq<Chunk>)
    ensures After(turn, s, cs) == After(turn, s, Firsts(cs))
  {
    if cs != [] {
      var n := |cs| - 1;
      ReplaysChangeNothing(turn, s, cs[..n]);
      if cs[n] in cs[..n] {
        SeenFramesAreIgnored(turn, s, cs[..n], cs[n]);
      } else {
        assert (Firsts(cs[..n]) + [cs[n]])[..|Firsts(cs[..n])|] == Firsts(cs[..n]);
      }
    }
  }

  /** `Firsts` keeps every frame once and only repeats go. */
  lemma {:induction false} FirstsFacts(cs: seq<Chunk>)
    ensures forall c :: c in Firsts(cs) <==> c in cs
    ensures forall i, j :: 0 <= i < j < |Firsts(cs)| ==> Firsts(cs)[i] != Firsts(cs)[j]
    ensures (forall i, j :: 0 <= i < j < |cs| ==> cs[i] != cs[j]) ==> Firsts(cs) == cs
  {
    if cs != [] {
      var n := |cs| - 1;
      FirstsFacts(cs[..n]);
      assert cs == cs[..n] + [cs[n]];
    }
  }

  /** One copy of an earlier frame, wherever it arrives, might as well not have. */
  lemma {:induction false} CopyChangesNothing(turn: string, s: State, before: seq<Chunk>, c: Chunk, after: seq<Chunk>)
    requires c in before
    ensures After(turn, s, before + [c] + after) == After(turn, s, before + after)
  {
    if after == [] {
      assert before + [c] + after == before + [c] && before + after == before;
      OneMore(turn, s, before, c);
      SeenFramesAreIgnored(turn, s, before, c);
    } else {
      var n := |after| - 1;
      CopyChangesNothing(turn, s, before, c, after[..n]);
      OneMore(turn, s, before + [c] + after[..n], after[n]);
      OneMore(turn, s, before + after[..n], after[n]);
      assert before + [c] + after == before + [c] + after[..n] + [after[n]];
      assert before + after == before + after[..n] + [after[n]];
    }
  }

  // ---------------------------------------------------------------- settling

  predicate StartsWith(s: string, prefix: string) {
    |prefix| <= |s| && s[..|prefix|] == prefix
  }

  function ReconcileSuffix(streamed: string, final: string): string {
    if |streamed| == 0 then final
    else if StartsWith(final, streamed) then final[|streamed|..]
    else if StartsWith(streamed, final) then ""
    else if Text.Trim(streamed) == Text.Trim(final) then ""
    else "\n" + final
  }

  function Settled(s: State, final: string): State {
    var suffix := ReconcileSuffix(s.text, final);
    s.(ended := true, text := if StartsWith(suffix, "\n") && |s.text| > 0 then final else s.text + suffix)
  }

  /** What was streamed already says what the final body says, and more. */
  predicate Covers(streamed: string, final: string) {
    && !(streamed <= final)
    && (final <= streamed || Text.Trim(streamed) == Text.Trim(final))
  }

  /** The recorded text is the final body unless the stream covers it, and then it stays. */
  lemma SettleRecords(s: State, final: string)
    ensures Settled(s, final).text == if Covers(s.text, final) then s.text else final
  {
    if |s.text| > 0 && StartsWith(final, s.text) { assert final == s.text + final[|s.text|..]; }
  }

  /** What the reader sees ends with the final body unless the stream covers it. */
  lemma SuffixCompletesTheDisplay(streamed: string, final: string)
    ensures var shown := streamed + ReconcileSuffix(streamed, final);
      if Covers(streamed, final) then shown == streamed
      else |final| <= |shown| && shown[|shown| - |final|..] == final
  {
    if |streamed| > 0 && StartsWith(final, streamed) { assert final == streamed + final[|streamed|..]; }
  }

  /** Settling again with the same body returns nothing and changes nothing. */
  lemma SettleIsIdempotent(s: State, final: string)
    ensures ReconcileSuffix(Settled(s, final).text, final) == ""
    ensures Settled(Settled(s, final), final) == Settled(s, final)
  {
    SettleRecords(s, final);
    assert StartsWith(final, final);
  }

  /** No frame changes a settled buffer. */
  lemma {:induction false} SettledIsFinal(turn: string, s: State, final: string, cs: seq<Chunk>)
    ensures After(turn, Settled(s, final), cs) == Settled(s, final)
  {
    if cs != [] { SettledIsFinal(turn, s, final, cs[..|cs| - 1]); }
  }

  class ResponseBuffer {
    const turnId: string
    var text: string
    var thinking: string
    var ended: bool
    var lastSeq: int
    ghost var frames: seq<Chunk>
    ghost var settled: bool

    /** Until it is settled the buffer is what the frames so far leave. */
    ghost predicate Valid()
      reads this
    {
      if settled then ended else Now() == After(turnId, INITIAL, frames)
    }

    function Now(): State
      reads this
    {
      State(text, thinking, ended, lastSeq)
    }

    constructor (turnId: string)
      ensures this.turnId == turnId && Valid() && !settled && frames == []
    {
      this.turnId := turnId;
      text, thinking, ended, lastSeq := "", "", false, -1;
      frames, settled := [], false;
    }

    method Accept(chunk: Chunk) returns (r: Option<AcceptedDelta>)
      requires Valid()
      modifies this
      ensures Valid() && settled == old(settled) && frames == old(frames) + [chunk]
      ensures Now() == Accepted(turnId, old(Now()), chunk)
      ensures r.Some? <==> Now() != old(Now()) && chunk.body.Delta?
      ensures r.Some? ==> chunk.body == Delta(r.value.channel, r.value.delta)
    {
      OneMore(turnId, INITIAL, frames, chunk);
      r := AcceptFrame(chunk);
      frames := frames + [chunk];
    }

    method AcceptFrame(chunk: Chunk) returns (r: Option<AcceptedDelta>)
      modifies `text, `thinking, `ended, `lastSeq
      ensures Now() == Accepted(turnId, old(Now()), chunk)
      ensures r.Some? <==> Now() != old(Now()) && chunk.body.Delta?
      ensures r.Some? ==> chunk.body == Delta(r.value.channel, r.value.delta)
    {
      if chunk.turnId != turnId { return None; }
      if ended { return None; }
      if chunk.seqNo <= lastSeq { return None; }
      lastSeq := chunk.seqNo;
      if chunk.body.End? {
        ended := true;
        return None;
      }
      if chunk.body.channel.Thinking? {
        thinking := thinking + chunk.body.delta;
      } else {
        text := text + chunk.body.delta;
      }
      return Some(AcceptedDelta(chunk.body.channel, chunk.body.delta));
    }

    method Settle(finalText: string) returns (suffix: string)
      modifies this
      ensures Valid() && settled && frames == old(frames)
      ensures Now() == Settled(old(Now()), finalText)
      ensures text == if Covers(old(text), finalText) then old(text) else finalText
      ensures suffix == ReconcileSuffix(old(text), finalText)
      // What follows the streamed text on display: the rest of the body, nothing, or the whole body on a new line.
      ensures old(text) <= finalText ==> old(text) + suffix == finalText
      ensures Covers(old(text), finalText) ==> suffix == ""
      ensures !(old(text) <= finalText) && !Covers(old(text), finalText) ==> suffix == "\n" + finalText
    {
      SettleRecords(Now(), finalText);
      ended := true;
      settled := true;
      suffix := ReconcileSuffix(text, finalText);
      if StartsWith(suffix, "\n") && |text| > 0 {
        text := finalText;
      } else {
        text := text + suffix;
      }
    }

    /** Before settling, the fold of this turn's record-high frames up to the first end. */
    method Snapshot() returns (t: string, k: string, e: bool)
      requires Valid()
      ensures t == text && k == thinking && e == ended
      ensures !settled ==>
        && t == Collected(turnId, frames, |frames|, Answer) && k == Collected(turnId, frames, |frames|, Thinking)
        && (e <==> EndedBy(turnId, frames, |frames|))
      ensures settled ==> e
    {
      SnapshotIsTheFold(turnId, frames);
      return text, thinking, ended;
    }
  }
}

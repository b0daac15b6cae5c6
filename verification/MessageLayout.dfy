/** How the gateway puts one wire fragment, its visible text and the recipient's mention in a message. */
module MessageLayout {
  import opened Domain
  import opened HiddenCodec
  import opened WireFragments

  const NEWLINE: CodeUnit := 10

  /** `<@id>`: no code unit of a marker or of the hidden payload is in it. */
  ghost predicate IsMention(mention: Text) {
    |mention| >= 3 && mention[0] == 60 && mention[1] == 64 && forall u :: u in mention ==> 32 < u < 128
  }

  predicate Contains(content: Text, part: Text) {
    exists i :: 0 <= i <= |content| && part <= content[i..]
  }

  function EnsureRecipientMention(content: Text, mention: Text): Text {
    if Contains(content, mention) then content else mention + [NEWLINE] + content
  }

  /** The budget handed to the splitter. */
  function FragmentBudget(mention: Text): int {
    if MESSAGE_LIMIT - |mention| - 2 < 200 then 200 else MESSAGE_LIMIT - |mention| - 2
  }

  /** Only the visible text is truncated; the wire fragment stays whole. */
  function Display(source: Text, wire: Text, mention: Text): Text {
    var budget := MESSAGE_LIMIT - |wire| - |mention| - 2;
    if budget <= 0 then [] else source[..Min(budget, |source|)]
  }

  function Message(source: Text, wire: Text, mention: Text): Text {
    EnsureRecipientMention(Display(source, wire, mention) + [NEWLINE] + wire, mention)
  }

  lemma MentionNotInWire(f: Fragment, mention: Text)
    requires f.index < 256 && f.total < 256 && IsMention(mention)
    ensures !Contains([NEWLINE] + WireFragment(f), mention)
  {
    var bytes := Header(f.id, f.index as Byte, f.total as Byte, f.digest) + f.chunk;
    InvisibleHasNoMention([NEWLINE] + EVENT_START, HiddenBody(bytes), EVENT_END, mention);
    assert [NEWLINE] + WireFragment(f) == [NEWLINE] + EVENT_START + HiddenBody(bytes) + EVENT_END;
  }

  lemma InvisibleHasNoMention(a: Text, body: Text, b: Text, mention: Text)
    requires IsMention(mention) && OnlySymbols(body)
    requires (forall i :: 0 <= i < |a| ==> a[i] != 60) && (forall i :: 0 <= i < |b| ==> b[i] != 60)
    ensures !Contains(a + body + b, mention)
  {
    var content := a + body + b;
    forall i | 0 <= i <= |content| ensures !(mention <= content[i..]) {
      if |a| <= i < |a| + |body| {
        assert content[i] == body[i - |a|];
        assert body[i - |a|] in body;
      }
    }
  }

  /**
   * A physical message respects the limit exactly when fragment, mention and the two line breaks
   * alone do. (When they do not, the display is already empty and the mention is still prepended.)
   */
  lemma MessageFitsIff(source: Text, f: Fragment, mention: Text)
    requires f.index < 256 && f.total < 256 && IsMention(mention)
    ensures |Message(source, WireFragment(f), mention)| <= MESSAGE_LIMIT
       <==> |WireFragment(f)| + |mention| + 2 <= MESSAGE_LIMIT
  {
    if |WireFragment(f)| + |mention| + 2 > MESSAGE_LIMIT {
      MentionNotInWire(f, mention);
      assert [] + [NEWLINE] + WireFragment(f) == [NEWLINE] + WireFragment(f);
    }
  }

  lemma PartOfLonger(a: Text, part: Text, b: Text)
    ensures Contains(a + part + b, part)
  {
    assert (a + part + b)[|a|..] == part + b;
  }

  /**
   * A message ends in its fragment, names its recipient, and shows as much of the text as is left of 1950
   * code units beside fragment, mention and line breaks: all of it if there is room.
   */
  lemma MessageShows(source: Text, wire: Text, mention: Text)
    ensures var room := 1950 - |wire| - |mention| - 2;
            var shown := if room <= 0 then [] else if room < |source| then source[..room] else source;
            && Contains(Message(source, wire, mention), mention)
            && (Message(source, wire, mention) == shown + [NEWLINE] + wire ||
                Message(source, wire, mention) == mention + [NEWLINE] + (shown + [NEWLINE] + wire))
  {
    var shown := Display(source, wire, mention);
    if 1950 - |wire| - |mention| - 2 >= |source| {
      assert source[..|source|] == source;
    }
    PartOfLonger([], mention, [NEWLINE] + (shown + [NEWLINE] + wire));
    assert [] + mention + ([NEWLINE] + (shown + [NEWLINE] + wire)) == mention + [NEWLINE] + (shown + [NEWLINE] + wire);
  }

  /** A line break between two marker-free texts cannot complete a marker. */
  lemma JoinedByLine(a: Text, b: Text)
    requires !HasMarker(a, EVENT_START) && !HasMarker(b, EVENT_START)
    ensures !HasMarker(a + [NEWLINE] + b, EVENT_START)
  {
    var t := a + [NEWLINE] + b;
    forall i | 0 <= i < |t| ensures !MarkerAt(t, EVENT_START, i) {
      if i < |a| {
        assert !MarkerAt(a, EVENT_START, i);
      } else if i > |a| {
        assert !MarkerAt(b, EVENT_START, i - |a| - 1);
      }
    }
  }

  lemma TruncatedOrMention(source: Text, wire: Text, mention: Text)
    requires !HasMarker(source, EVENT_START) && IsMention(mention)
    ensures !HasMarker(Display(source, wire, mention), EVENT_START) && !HasMarker(mention, EVENT_START)
  {
    var d := Display(source, wire, mention);
    forall i | 0 <= i < |d| ensures !MarkerAt(d, EVENT_START, i) {
      assert !MarkerAt(source, EVENT_START, i);
    }
    forall i | 0 <= i < |mention| ensures !MarkerAt(mention, EVENT_START, i) {
      assert mention[i] in mention;
    }
  }

  /** Whatever is prepended or truncated, the message still decodes to its fragment. */
  lemma MessageDecodes(source: Text, f: Fragment, mention: Text)
    requires f.index < f.total <= FRAGMENT_MAX_COUNT && IsMention(mention)
    requires !HasMarker(source, EVENT_START)
    ensures DecodeEnvelopeFragment(Message(source, WireFragment(f), mention)) == Some(f)
  {
    var wire := WireFragment(f);
    var display := Display(source, wire, mention);
    TruncatedOrMention(source, wire, mention);
    var bare := display + [NEWLINE];
    var full := mention + [NEWLINE] + bare;
    assert bare == display + [NEWLINE] + [];
    JoinedByLine(display, []);
    JoinedByLine(mention, bare);
    FragmentRoundTrip(bare, f, []);
    FragmentRoundTrip(full, f, []);
    MessageIsOneOf(display, wire, mention);
  }

  lemma MessageIsOneOf(display: Text, wire: Text, mention: Text)
    ensures EnsureRecipientMention(display + [NEWLINE] + wire, mention)
         in {(display + [NEWLINE]) + wire + [], (mention + [NEWLINE] + (display + [NEWLINE])) + wire + []}
  {
    assert (display + [NEWLINE]) + wire + [] == display + [NEWLINE] + wire;
    assert (mention + [NEWLINE] + (display + [NEWLINE])) + wire + [] == mention + [NEWLINE] + (display + [NEWLINE] + wire);
  }

  /**
   * Every message published for a payload, whatever its visible text, is within the limit and reads
   * back as its fragment, for every mention that leaves the splitter its minimum budget.
   */
  lemma PublishedMessages(payload: Bytes, id: EnvelopeId, digest: Digest, mention: Text, source: Text, i: nat)
    requires IsMention(mention) && |mention| <= MESSAGE_LIMIT - 202
    requires var fs := Split(payload, id, digest, MaxChunkBytes(FragmentBudget(mention)));
             i < |fs| <= FRAGMENT_MAX_COUNT
    requires !HasMarker(source, EVENT_START)
    ensures var f := Split(payload, id, digest, MaxChunkBytes(FragmentBudget(mention)))[i];
            var message := Message(source, WireFragment(f), mention);
            |message| <= MESSAGE_LIMIT && DecodeEnvelopeFragment(message) == Some(f)
  {
    var size := MaxChunkBytes(FragmentBudget(mention));
    var f := Split(payload, id, digest, size)[i];
    ChunkFits(payload, size, i);
    FragmentWithinBudget(f, FragmentBudget(mention));
    MessageFitsIff(source, f, mention);
    MessageDecodes(source, f, mention);
  }
}

/**
 * Reassembly of multi-message envelopes. The buffer's own clock readings, authors and message
 * contents are arguments; SHA-256 and inflate/JSON/validation are the two functions of `Codec`.
 */
module FragmentBuffer {
  import opened Domain
  import opened HiddenCodec
  import opened WireFragments

  const TTL_MS := 300000
  const MAX_PENDING_SETS := 500

  type Author = string
  type MessageId = string

  /** `open` is None for payloads that do not inflate, parse or validate. */
  datatype Codec<!E> = Codec(digest: Bytes -> Digest, open: (Bytes, MessageId) -> Option<E>)

  /** Digest first, then inflate and parse. */
  function FinalizeEnvelope<E>(codec: Codec<E>, chunks: seq<Bytes>, expected: Digest, message: MessageId): Option<E> {
    var payload := Flatten(chunks);
    if codec.digest(payload) != expected then None else codec.open(payload, message)
  }

  datatype FragmentSet<E> = FragmentSet(
    total: nat, digest: Digest, author: Author, chunks: map<nat, Bytes>, firstSeenAt: Time, envelope: Option<E>)

  type Sets<E> = map<EnvelopeId, FragmentSet<E>>

  datatype IngestResult<E> = Complete(envelope: E) | Pending | Invalid | NotAFragment

  /** One call of `ingest`: the clock is read once to evict and once more for a new set. */
  datatype Input = Input(content: Text, author: Author, message: MessageId, evictAt: Time, seenAt: Time)

  // ---------------------------------------------------------------- the specification of one call

  function Evicted<E>(sets: Sets<E>, now: Time): Sets<E> {
    map id | id in sets && sets[id].firstSeenAt >= now - TTL_MS :: sets[id]
  }

  function Ordered(chunks: map<nat, Bytes>, total: nat): seq<Bytes>
    requires forall i :: 0 <= i < total ==> i in chunks
  {
    seq(total, i requires 0 <= i < total => chunks[i])
  }

  predicate Agrees<E>(known: FragmentSet<E>, f: Fragment, author: Author) {
    known.total == f.total && known.digest == f.digest && known.author == author
  }

  predicate AllPresent(chunks: map<nat, Bytes>, total: nat) {
    forall i :: 0 <= i < total ==> i in chunks
  }

  /** What a new chunk does to its set. */
  function Placed<E>(codec: Codec<E>, sets: Sets<E>, known: FragmentSet<E>, f: Fragment, message: MessageId)
    : (Sets<E>, IngestResult<E>)
  {
    var grown := known.(chunks := known.chunks[f.index := f.chunk]);
    var sets' := sets[f.id := grown];
    if |grown.chunks| < grown.total then (sets', Pending)
    else if !AllPresent(grown.chunks, grown.total) then (sets', Invalid)
    else match FinalizeEnvelope(codec, Ordered(grown.chunks, grown.total), grown.digest, message)
      case None => (sets' - {f.id}, Invalid)
      case Some(envelope) => (sets'[f.id := grown.(envelope := Some(envelope))], Complete(envelope))
  }

  function Fed<E>(codec: Codec<E>, sets: Sets<E>, f: Fragment, i: Input): (Sets<E>, IngestResult<E>) {
    if f.total == 1 then
      (sets, match FinalizeEnvelope(codec, [f.chunk], f.digest, i.message)
             case None => Invalid
             case Some(envelope) => Complete(envelope))
    else if f.id in sets then
      if !Agrees(sets[f.id], f, i.author) then (sets - {f.id}, Invalid)
      else if sets[f.id].envelope.Some? then (sets, Complete(sets[f.id].envelope.value))
      else Placed(codec, sets, sets[f.id], f, i.message)
    else if |sets| >= MAX_PENDING_SETS then (sets, Invalid)
    else Placed(codec, sets, FragmentSet(f.total, f.digest, i.author, map[], i.seenAt, None), f, i.message)
  }

  function Ingested<E>(codec: Codec<E>, sets: Sets<E>, i: Input): (Sets<E>, IngestResult<E>) {
    var kept := Evicted(sets, i.evictAt);
    match DecodeEnvelopeFragment(i.content)
    case None => (kept, NotAFragment)
    case Some(f) => Fed(codec, kept, f, i)
  }

  // ---------------------------------------------------------------- the buffer

  class EnvelopeFragmentBuffer<E(0,==)> {
    const codec: Codec<E>
    var sets: Sets<E>

    constructor (codec: Codec<E>)
      ensures this.codec == codec && sets == map[]
    {
      this.codec := codec;
      sets := map[];
    }

    method Ingest(i: Input) returns (r: IngestResult<E>)
      modifies this
      ensures (sets, r) == Ingested(codec, old(sets), i)
    {
      EvictStale(i.evictAt);
      var decoded := DecodeEnvelopeFragment(i.content);
      if decoded.None? {
        return NotAFragment;
      }
      r := Feed(decoded.value, i);
    }

    method Feed(fragment: Fragment, i: Input) returns (r: IngestResult<E>)
      modifies this
      ensures (sets, r) == Fed(codec, old(sets), fragment, i)
    {
      if fragment.total == 1 {
        var envelope := FinalizeEnvelope(codec, [fragment.chunk], fragment.digest, i.message);
        return if envelope.Some? then Complete(envelope.value) else Invalid;
      }
      if fragment.id in sets {
        var known := sets[fragment.id];
        if known.total != fragment.total || known.digest != fragment.digest || known.author != i.author {
          sets := sets - {fragment.id};
          return Invalid;
        }
        if known.envelope.Some? {
          return Complete(known.envelope.value);
        }
        r := Place(known, fragment, i.message);
      } else {
        if |sets| >= MAX_PENDING_SETS {
          return Invalid;
        }
        var known := FragmentSet(fragment.total, fragment.digest, i.author, map[], i.seenAt, None);
        r := Place(known, fragment, i.message);
      }
    }

    method Place(known: FragmentSet<E>, fragment: Fragment, message: MessageId) returns (r: IngestResult<E>)
      modifies this
      ensures (sets, r) == Placed(codec, old(sets), known, fragment, message)
    {
      var current := known.(chunks := known.chunks[fragment.index := fragment.chunk]);
      sets := sets[fragment.id := current];
      if |current.chunks| < current.total {
        return Pending;
      }
      var ordered: seq<Bytes> := [];
      for index := 0 to current.total
        invariant AllPresent(current.chunks, index) && ordered == Ordered(current.chunks, index)
      {
        if index !in current.chunks {
          return Invalid;
        }
        ordered := ordered + [current.chunks[index]];
      }
      var envelope := FinalizeEnvelope(codec, ordered, current.digest, message);
      if envelope.None? {
        sets := sets - {fragment.id};
        return Invalid;
      }
      sets := sets[fragment.id := current.(envelope := envelope)];
      return Complete(envelope.value);
    }

    method EvictStale(now: Time)
      modifies this
      ensures sets == Evicted(old(sets), now)
    {
      var cutoff := now - TTL_MS;
      var keys := sets.Keys;
      while keys != {}
        invariant keys <= sets.Keys <= old(sets).Keys
        invariant forall id :: id in sets ==> sets[id] == old(sets)[id]
        invariant forall id :: id in old(sets) && id !in keys ==>
          (id in sets <==> old(sets)[id].firstSeenAt >= cutoff)
      {
        var key :| key in keys;
        keys := keys - {key};
        if sets[key].firstSeenAt < cutoff {
          sets := sets - {key};
        }
      }
    }
  }

  // ---------------------------------------------------------------- what one call decides

  /** A set outlives its first fragment by five minutes, and not longer. */
  lemma KeptFiveMinutes<E>(sets: Sets<E>, now: Time, id: EnvelopeId)
    ensures id in Evicted(sets, now) <==> id in sets && now - sets[id].firstSeenAt <= 5 * 60 * 1000
    ensures id in Evicted(sets, now) ==> Evicted(sets, now)[id] == sets[id]
  {
  }

  /** An envelope in a single fragment is answered at once and stored nowhere. */
  lemma SingleFragment<E>(codec: Codec<E>, sets: Sets<E>, f: Fragment, i: Input)
    requires f.total == 1
    ensures var (after, r) := Fed(codec, sets, f, i);
            after == sets && r == if codec.digest(f.chunk) == f.digest && codec.open(f.chunk, i.message).Some?
                                  then Complete(codec.open(f.chunk, i.message).value) else Invalid
  {
    assert Flatten([f.chunk]) == f.chunk + Flatten([]) == f.chunk;
  }

  /** A fragment that contradicts its set, in total, digest or author, is refused and takes the set with it. */
  lemma Contradiction<E>(codec: Codec<E>, sets: Sets<E>, f: Fragment, i: Input)
    requires f.total != 1 && f.id in sets
    requires f.total != sets[f.id].total || f.digest != sets[f.id].digest || i.author != sets[f.id].author
    ensures Fed(codec, sets, f, i) == (sets - {f.id}, Invalid)
  {
  }

  /** A completed set answers its envelope again; a new one is refused exactly when 500 are stored. */
  lemma KnownOrFull<E>(codec: Codec<E>, sets: Sets<E>, f: Fragment, i: Input)
    requires f.total >= 2
    ensures f.id in sets && sets[f.id].envelope.Some? && Agrees(sets[f.id], f, i.author) ==>
              Fed(codec, sets, f, i) == (sets, Complete(sets[f.id].envelope.value))
    ensures f.id !in sets && |sets| >= 500 ==> Fed(codec, sets, f, i) == (sets, Invalid)
    ensures f.id !in sets && |sets| < 500 ==>
              var (after, r) := Fed(codec, sets, f, i);
              r == Pending && f.id in after && after == sets[f.id := after[f.id]]
              && after[f.id] == FragmentSet(f.total, f.digest, i.author, map[f.index := f.chunk], i.seenAt, None)
  {
    if f.id !in sets && |sets| < 500 {
      var grown := map[][f.index := f.chunk];
      assert grown == map[f.index := f.chunk] && grown.Keys == {f.index};
      assert |grown| == 1;
    }
  }

  // ---------------------------------------------------------------- runs

  /** The buffer after a whole history of calls. */
  function After<E>(codec: Codec<E>, sets: Sets<E>, inputs: seq<Input>): Sets<E> {
    if inputs == [] then sets
    else Ingested(codec, After(codec, sets, Init(inputs)), Last(inputs)).0
  }

  /** The answer to the last call of a history. */
  function Answer<E>(codec: Codec<E>, sets: Sets<E>, inputs: seq<Input>): IngestResult<E>
    requires inputs != []
  {
    Ingested(codec, After(codec, sets, Init(inputs)), Last(inputs)).1
  }

  function Init<T>(s: seq<T>): seq<T>
    requires s != []
  {
    s[..|s| - 1]
  }

  function Last<T>(s: seq<T>): T
    requires s != []
  {
    s[|s| - 1]
  }

  // ---------------------------------------------------------------- safety on arbitrary input

  /** A stored set is incomplete, or it holds an envelope whose digest was checked. */
  ghost predicate SetSound<E>(codec: Codec<E>, s: FragmentSet<E>) {
    && s.total >= 2
    && (forall i :: i in s.chunks ==> i < s.total)
    && (if s.envelope.None? then |s.chunks| < s.total else AllPresent(s.chunks, s.total) && Verified(codec, s))
  }

  ghost predicate Verified<E>(codec: Codec<E>, s: FragmentSet<E>)
    requires AllPresent(s.chunks, s.total)
  {
    exists m :: FinalizeEnvelope(codec, Ordered(s.chunks, s.total), s.digest, m) == s.envelope
  }

  ghost predicate BufferSound<E>(codec: Codec<E>, sets: Sets<E>) {
    |sets| <= MAX_PENDING_SETS && forall id :: id in sets ==> SetSound(codec, sets[id])
  }

  lemma {:induction false} BoundedSet(s: set<nat>, n: nat)
    requires forall i :: i in s ==> i < n
    ensures |s| <= n
  {
    if n == 0 {
      assert s == {};
    } else {
      BoundedSet(s - {n - 1}, n - 1);
      assert |s| <= |s - {n - 1}| + 1;
    }
  }

  /** Pigeonhole: `total` chunks with indices below `total` leave no gap. */
  lemma NoGap(chunks: map<nat, Bytes>, total: nat)
    requires forall i :: i in chunks ==> i < total
    ensures |chunks| <= total
    ensures |chunks| >= total ==> AllPresent(chunks, total)
  {
    assert |chunks| == |chunks.Keys|;
    BoundedSet(chunks.Keys, total);
    forall i | 0 <= i < total && i !in chunks ensures |chunks| < total {
      BoundedSet(chunks.Keys + {i}, total);
    }
  }

  ghost predicate Placeable<E>(s: FragmentSet<E>, f: Fragment) {
    s.total == f.total >= 2 && s.envelope.None? && f.index < f.total && forall i :: i in s.chunks ==> i < s.total
  }

  /** The defensive "missing chunk" exit of the assembly loop is dead code. */
  lemma MissingChunkUnreachable<E>(s: FragmentSet<E>, f: Fragment)
    requires Placeable(s, f)
    ensures var grown := s.chunks[f.index := f.chunk];
            |grown| >= s.total ==> AllPresent(grown, s.total)
  {
    NoGap(s.chunks[f.index := f.chunk], s.total);
  }

  lemma PlacedSound<E>(codec: Codec<E>, sets: Sets<E>, s: FragmentSet<E>, f: Fragment, m: MessageId)
    requires Placeable(s, f) && BufferSound(codec, sets)
    requires f.id in sets || |sets| < MAX_PENDING_SETS
    ensures BufferSound(codec, Placed(codec, sets, s, f, m).0)
  {
    MissingChunkUnreachable(s, f);
    var grown := s.(chunks := s.chunks[f.index := f.chunk]);
    var sets' := Placed(codec, sets, s, f, m).0;
    assert sets'.Keys <= sets.Keys + {f.id};
    CardinalityOfUpdate(sets, sets', f.id);
    if |grown.chunks| >= grown.total && f.id in sets' {
      assert Verified(codec, sets'[f.id]);
    }
    assert f.id in sets' ==> SetSound(codec, sets'[f.id]);
  }

  lemma CardinalityOfUpdate<E>(sets: Sets<E>, sets': Sets<E>, id: EnvelopeId)
    requires sets'.Keys <= sets.Keys + {id}
    ensures |sets'| <= |sets| + (if id in sets then 0 else 1)
  {
    Subset(sets'.Keys, sets.Keys + {id});
  }

  lemma {:induction false} Subset<T>(a: set<T>, b: set<T>)
    requires a <= b
    ensures |a| <= |b|
  {
    if a != {} {
      var x :| x in a;
      Subset(a - {x}, b - {x});
    }
  }

  lemma EvictedSound<E>(codec: Codec<E>, sets: Sets<E>, now: Time)
    requires BufferSound(codec, sets)
    ensures BufferSound(codec, Evicted(sets, now))
  {
    Subset(Evicted(sets, now).Keys, sets.Keys);
  }

  lemma FedSound<E>(codec: Codec<E>, sets: Sets<E>, f: Fragment, i: Input)
    requires BufferSound(codec, sets) && f.index < f.total
    ensures BufferSound(codec, Fed(codec, sets, f, i).0)
  {
    if f.total != 1 {
      if f.id in sets {
        if Agrees(sets[f.id], f, i.author) && sets[f.id].envelope.None? {
          PlacedSound(codec, sets, sets[f.id], f, i.message);
        } else {
          Subset((sets - {f.id}).Keys, sets.Keys);
        }
      } else if |sets| < MAX_PENDING_SETS {
        PlacedSound(codec, sets, FragmentSet(f.total, f.digest, i.author, map[], i.seenAt, None), f, i.message);
      }
    }
  }

  /** After any history whatever: at most 500 sets, all indices in range, nothing unverified complete. */
  lemma {:induction false} BufferAlwaysSound<E>(codec: Codec<E>, inputs: seq<Input>)
    ensures BufferSound(codec, After(codec, map[], inputs))
  {
    if inputs != [] {
      BufferAlwaysSound(codec, Init(inputs));
      var before := After(codec, map[], Init(inputs));
      EvictedSound(codec, before, Last(inputs).evictAt);
      var decoded := DecodeEnvelopeFragment(Last(inputs).content);
      if decoded.Some? {
        FedSound(codec, Evicted(before, Last(inputs).evictAt), decoded.value, Last(inputs));
      }
    }
  }

  // ---------------------------------------------------------------- where a completed envelope came from

  /** Some call of the history carried exactly this fragment from this author. */
  ghost predicate Sent(inputs: seq<Input>, f: Fragment, author: Author) {
    exists n :: 0 <= n < |inputs| && inputs[n].author == author && DecodeEnvelopeFragment(inputs[n].content) == Some(f)
  }

  function SetFragment<E>(id: EnvelopeId, s: FragmentSet<E>, k: nat): Fragment
    requires k in s.chunks
  {
    Fragment(id, k, s.total, s.digest, s.chunks[k])
  }

  /** Envelope `e` was opened, for a message of the history, from digest-checked chunks of one author. */
  ghost predicate Assembled<E>(codec: Codec<E>, inputs: seq<Input>, id: EnvelopeId, digest: Digest, author: Author,
                               chunks: seq<Bytes>, e: E) {
    && (forall k :: 0 <= k < |chunks| ==> Sent(inputs, Fragment(id, k, |chunks|, digest, chunks[k]), author))
    && codec.digest(Flatten(chunks)) == digest
    && exists n :: 0 <= n < |inputs| && codec.open(Flatten(chunks), inputs[n].message) == Some(e)
  }

  ghost predicate Sourced<E>(codec: Codec<E>, inputs: seq<Input>, id: EnvelopeId, s: FragmentSet<E>) {
    && (forall k :: k in s.chunks ==> Sent(inputs, SetFragment(id, s, k), s.author))
    && (s.envelope.Some? ==>
          exists chunks :: |chunks| == s.total && Assembled(codec, inputs, id, s.digest, s.author, chunks, s.envelope.value))
  }

  ghost predicate AllSourced<E>(codec: Codec<E>, inputs: seq<Input>, sets: Sets<E>) {
    forall id :: id in sets ==> Sourced(codec, inputs, id, sets[id])
  }

  lemma SentGrows(inputs: seq<Input>, i: Input, f: Fragment, author: Author)
    requires Sent(inputs, f, author)
    ensures Sent(inputs + [i], f, author)
  {
    var n :| 0 <= n < |inputs| && inputs[n].author == author && DecodeEnvelopeFragment(inputs[n].content) == Some(f);
    assert (inputs + [i])[n] == inputs[n];
  }

  lemma AssembledGrows<E>(codec: Codec<E>, inputs: seq<Input>, i: Input, id: EnvelopeId, digest: Digest,
                          author: Author, chunks: seq<Bytes>, e: E)
    requires Assembled(codec, inputs, id, digest, author, chunks, e)
    ensures Assembled(codec, inputs + [i], id, digest, author, chunks, e)
  {
    forall k | 0 <= k < |chunks| ensures Sent(inputs + [i], Fragment(id, k, |chunks|, digest, chunks[k]), author) {
      SentGrows(inputs, i, Fragment(id, k, |chunks|, digest, chunks[k]), author);
    }
    var n :| 0 <= n < |inputs| && codec.open(Flatten(chunks), inputs[n].message) == Some(e);
    assert (inputs + [i])[n] == inputs[n];
  }

  lemma SourcedGrows<E>(codec: Codec<E>, inputs: seq<Input>, i: Input, id: EnvelopeId, s: FragmentSet<E>)
    requires Sourced(codec, inputs, id, s)
    ensures Sourced(codec, inputs + [i], id, s)
  {
    forall k | k in s.chunks ensures Sent(inputs + [i], SetFragment(id, s, k), s.author) {
      SentGrows(inputs, i, SetFragment(id, s, k), s.author);
    }
    if s.envelope.Some? {
      var chunks :| |chunks| == s.total && Assembled(codec, inputs, id, s.digest, s.author, chunks, s.envelope.value);
      AssembledGrows(codec, inputs, i, id, s.digest, s.author, chunks, s.envelope.value);
    }
  }

  lemma GrownSourced<E>(codec: Codec<E>, inputs: seq<Input>, s: FragmentSet<E>, f: Fragment)
    requires Sent(inputs, f, s.author)
    requires Agrees(s, f, s.author) && s.envelope.None? && Sourced(codec, inputs, f.id, s)
    ensures Sourced(codec, inputs, f.id, s.(chunks := s.chunks[f.index := f.chunk]))
  {
    var grown := s.(chunks := s.chunks[f.index := f.chunk]);
    assert SetFragment(f.id, grown, f.index) == f;
    forall k | k in grown.chunks ensures Sent(inputs, SetFragment(f.id, grown, k), s.author) {
      if k != f.index { assert SetFragment(f.id, grown, k) == SetFragment(f.id, s, k); }
    }
  }

  lemma AllSent<E>(inputs: seq<Input>, id: EnvelopeId, s: FragmentSet<E>, chunks: seq<Bytes>)
    requires AllPresent(s.chunks, s.total) && chunks == Ordered(s.chunks, s.total)
    requires forall k :: k in s.chunks ==> Sent(inputs, SetFragment(id, s, k), s.author)
    ensures forall k :: 0 <= k < |chunks| ==> Sent(inputs, Fragment(id, k, |chunks|, s.digest, chunks[k]), s.author)
  {
    forall k | 0 <= k < |chunks| ensures Sent(inputs, Fragment(id, k, |chunks|, s.digest, chunks[k]), s.author) {
      assert Fragment(id, k, |chunks|, s.digest, chunks[k]) == SetFragment(id, s, k);
    }
  }

  lemma FinalizedAssembled<E>(codec: Codec<E>, inputs: seq<Input>, id: EnvelopeId, s: FragmentSet<E>, e: E)
    requires inputs != [] && Sourced(codec, inputs, id, s) && AllPresent(s.chunks, s.total)
    requires FinalizeEnvelope(codec, Ordered(s.chunks, s.total), s.digest, Last(inputs).message) == Some(e)
    ensures Assembled(codec, inputs, id, s.digest, s.author, Ordered(s.chunks, s.total), e)
  {
    var chunks := Ordered(s.chunks, s.total);
    AllSent(inputs, id, s, chunks);
    assert codec.open(Flatten(chunks), inputs[|inputs| - 1].message) == Some(e);
  }

  /** A COMPLETE answer to fragment `f` from `author` names sources in the history. */
  ghost predicate Authentic<E>(codec: Codec<E>, inputs: seq<Input>, f: Fragment, author: Author, r: IngestResult<E>) {
    r.Complete? ==>
      exists chunks :: |chunks| == f.total && Assembled(codec, inputs, f.id, f.digest, author, chunks, r.envelope)
  }

  lemma FinishedSourced<E>(codec: Codec<E>, inputs: seq<Input>, id: EnvelopeId, s: FragmentSet<E>, e: E)
    requires Sourced(codec, inputs, id, s) && AllPresent(s.chunks, s.total)
    requires Assembled(codec, inputs, id, s.digest, s.author, Ordered(s.chunks, s.total), e)
    ensures Sourced(codec, inputs, id, s.(envelope := Some(e)))
  {
    var done := s.(envelope := Some(e));
    forall k | k in done.chunks ensures Sent(inputs, SetFragment(id, done, k), done.author) {
      assert SetFragment(id, done, k) == SetFragment(id, s, k);
    }
  }

  lemma UpdateSourced<E>(codec: Codec<E>, inputs: seq<Input>, sets: Sets<E>, id: EnvelopeId, s: FragmentSet<E>)
    requires AllSourced(codec, inputs, sets) && Sourced(codec, inputs, id, s)
    ensures AllSourced(codec, inputs, sets[id := s]) && AllSourced(codec, inputs, sets[id := s] - {id})
  {
  }

  lemma PlacedSourced<E>(codec: Codec<E>, inputs: seq<Input>, sets: Sets<E>, s: FragmentSet<E>, f: Fragment)
    requires inputs != [] && Sent(inputs, f, s.author)
    requires Agrees(s, f, s.author) && Placeable(s, f)
    requires AllSourced(codec, inputs, sets) && Sourced(codec, inputs, f.id, s)
    ensures AllSourced(codec, inputs, Placed(codec, sets, s, f, Last(inputs).message).0)
    ensures Authentic(codec, inputs, f, s.author, Placed(codec, sets, s, f, Last(inputs).message).1)
  {
    var grown := s.(chunks := s.chunks[f.index := f.chunk]);
    GrownSourced(codec, inputs, s, f);
    UpdateSourced(codec, inputs, sets, f.id, grown);
    if |grown.chunks| >= grown.total && AllPresent(grown.chunks, grown.total) {
      var chunks := Ordered(grown.chunks, grown.total);
      var envelope := FinalizeEnvelope(codec, chunks, grown.digest, Last(inputs).message);
      if envelope.Some? {
        FinalizedAssembled(codec, inputs, f.id, grown, envelope.value);
        FinishedSourced(codec, inputs, f.id, grown, envelope.value);
        UpdateSourced(codec, inputs, sets[f.id := grown], f.id, grown.(envelope := envelope));
      }
    }
  }

  lemma FedSourced<E>(codec: Codec<E>, inputs: seq<Input>, sets: Sets<E>, f: Fragment)
    requires inputs != [] && DecodeEnvelopeFragment(Last(inputs).content) == Some(f)
    requires f.total != 1 && f.index < f.total && BufferSound(codec, sets) && AllSourced(codec, inputs, sets)
    ensures var (sets', r) := Fed(codec, sets, f, Last(inputs));
            AllSourced(codec, inputs, sets') && Authentic(codec, inputs, f, Last(inputs).author, r)
  {
    var i := Last(inputs);
    assert Sent(inputs, f, i.author) by { assert inputs[|inputs| - 1] == i; }
    if f.id in sets {
      if Agrees(sets[f.id], f, i.author) && sets[f.id].envelope.None? {
        PlacedSourced(codec, inputs, sets, sets[f.id], f);
      }
    } else if |sets| < MAX_PENDING_SETS {
      PlacedSourced(codec, inputs, sets, FragmentSet(f.total, f.digest, i.author, map[], i.seenAt, None), f);
    }
  }

  lemma {:induction false} AlwaysSourced<E>(codec: Codec<E>, inputs: seq<Input>)
    ensures AllSourced(codec, inputs, After(codec, map[], inputs))
    decreases |inputs|, 0
  {
    if inputs != [] {
      EvictedSourced(codec, inputs);
      var kept := Evicted(After(codec, map[], Init(inputs)), Last(inputs).evictAt);
      var decoded := DecodeEnvelopeFragment(Last(inputs).content);
      if decoded.Some? && decoded.value.total != 1 {
        FedSourced(codec, inputs, kept, decoded.value);
      }
    }
  }

  lemma EvictedSourced<E>(codec: Codec<E>, inputs: seq<Input>)
    requires inputs != []
    ensures var kept := Evicted(After(codec, map[], Init(inputs)), Last(inputs).evictAt);
            BufferSound(codec, kept) && AllSourced(codec, inputs, kept)
    decreases |inputs| - 1, 1
  {
    var before := After(codec, map[], Init(inputs));
    AlwaysSourced(codec, Init(inputs));
    BufferAlwaysSound(codec, Init(inputs));
    EvictedSound(codec, before, Last(inputs).evictAt);
    assert inputs == Init(inputs) + [Last(inputs)];
    forall id | id in before ensures Sourced(codec, inputs, id, before[id]) {
      SourcedGrows(codec, Init(inputs), Last(inputs), id, before[id]);
    }
  }

  /**
   * Whatever was fed to the buffer, a multi-fragment COMPLETE answer is the opening of chunks that
   * one author sent under one id, total and digest, in index order, and that match the digest.
   */
  lemma CompleteIsAuthentic<E>(codec: Codec<E>, inputs: seq<Input>, f: Fragment)
    requires inputs != [] && DecodeEnvelopeFragment(Last(inputs).content) == Some(f) && f.total != 1
    requires Answer(codec, map[], inputs).Complete?
    ensures exists chunks :: |chunks| == f.total && Assembled(codec, inputs, f.id, f.digest, Last(inputs).author,
                                                                chunks, Answer(codec, map[], inputs).envelope)
  {
    EvictedSourced(codec, inputs);
    FedSourced(codec, inputs, Evicted(After(codec, map[], Init(inputs)), Last(inputs).evictAt), f);
  }
}

/**
 * The buffer's promise to honest senders: fragments in any order, duplicated and interleaved with
 * anything else, give PENDING until the last missing one and the sender's envelope from then on.
 */
module Reassembly {
  import opened Domain
  import opened HiddenCodec
  import opened WireFragments
  import opened FragmentBuffer

  /** One published multi-fragment envelope. */
  datatype Source = Source(id: EnvelopeId, author: Author, digest: Digest, chunks: seq<Bytes>)

  function Piece(src: Source, k: nat): Fragment
    requires k < |src.chunks|
  {
    Fragment(src.id, k, |src.chunks|, src.digest, src.chunks[k])
  }

  /** The digest is the payload's and the payload opens to a well-formed envelope. */
  ghost predicate Genuine<E>(codec: Codec<E>, src: Source) {
    && |src.chunks| >= 2
    && codec.digest(Flatten(src.chunks)) == src.digest
    && forall m :: codec.open(Flatten(src.chunks), m).Some?
  }

  /** The call brings a fragment that claims the source's envelope id. */
  predicate Claims(src: Source, i: Input) {
    var decoded := DecodeEnvelopeFragment(i.content);
    decoded.Some? && decoded.value.id == src.id && decoded.value.total != 1
  }

  /** Nobody else uses the source's id: every claim is one of its own pieces, from its author. */
  ghost predicate Unforged(src: Source, inputs: seq<Input>) {
    forall n :: 0 <= n < |inputs| && Claims(src, inputs[n]) ==> Delivers(src, inputs[n])
  }

  ghost predicate Delivers(src: Source, i: Input)
    requires Claims(src, i)
  {
    var f := DecodeEnvelopeFragment(i.content).value;
    f.index < |src.chunks| && f == Piece(src, f.index) && i.author == src.author
  }

  /** The indices delivered so far. */
  function Arrived(src: Source, inputs: seq<Input>): set<nat> {
    if inputs == [] then {} else
    var before := Arrived(src, Init(inputs));
    if Claims(src, Last(inputs)) then before + {DecodeEnvelopeFragment(Last(inputs).content).value.index} else before
  }

  /** The buffer's clock at the first delivery. */
  function FirstSeen(src: Source, inputs: seq<Input>): Option<Time> {
    if inputs == [] then None
    else if FirstSeen(src, Init(inputs)).Some? then FirstSeen(src, Init(inputs))
    else if Claims(src, Last(inputs)) then Some(Last(inputs).seenAt) else None
  }

  predicate Covers(s: set<nat>, n: nat) {
    forall k :: 0 <= k < n ==> k in s
  }

  predicate AllArrived(src: Source, inputs: seq<Input>) {
    Covers(Arrived(src, inputs), |src.chunks|)
  }

  /** The message whose arrival filled the last gap: its metadata is stamped on the envelope. */
  function CompletedBy(src: Source, inputs: seq<Input>): Option<MessageId> {
    if inputs == [] then None
    else if CompletedBy(src, Init(inputs)).Some? then CompletedBy(src, Init(inputs))
    else if AllArrived(src, inputs) then Some(Last(inputs).message) else None
  }

  /** From the first delivery on, no call's clock reading is more than the TTL later. */
  predicate InTime(src: Source, inputs: seq<Input>) {
    inputs == [] ||
    (&& InTime(src, Init(inputs))
     && (FirstSeen(src, Init(inputs)).Some? ==> Last(inputs).evictAt - FirstSeen(src, Init(inputs)).value <= TTL_MS))
  }

  /** The buffer is not full when the first fragment arrives. */
  predicate HasRoom<E>(codec: Codec<E>, sets: Sets<E>, src: Source, inputs: seq<Input>) {
    inputs == [] ||
    (&& HasRoom(codec, sets, src, Init(inputs))
     && (FirstSeen(src, Init(inputs)).None? && Claims(src, Last(inputs)) ==>
           |Evicted(After(codec, sets, Init(inputs)), Last(inputs).evictAt)| < MAX_PENDING_SETS))
  }

  /** The set the buffer must hold for the source. */
  function Expected<E>(codec: Codec<E>, src: Source, inputs: seq<Input>): FragmentSet<E>
    requires FirstSeen(src, inputs).Some?
    requires forall k :: k in Arrived(src, inputs) ==> k < |src.chunks|
  {
    FragmentSet(|src.chunks|, src.digest, src.author, map k | k in Arrived(src, inputs) :: src.chunks[k],
                FirstSeen(src, inputs).value,
                match CompletedBy(src, inputs) case None => None case Some(m) => codec.open(Flatten(src.chunks), m))
  }

  /** The buffer holds exactly what the deliveries so far account for. */
  ghost predicate Tracks<E>(codec: Codec<E>, sets: Sets<E>, src: Source, inputs: seq<Input>) {
    && (forall k :: k in Arrived(src, inputs) ==> k < |src.chunks|)
    && (FirstSeen(src, inputs).None? <==> Arrived(src, inputs) == {})
    && (CompletedBy(src, inputs).Some? <==> AllArrived(src, inputs))
    && (if FirstSeen(src, inputs).None? then src.id !in sets
        else src.id in sets && sets[src.id] == Expected(codec, src, inputs))
  }

  lemma EvictionSpares<E>(codec: Codec<E>, sets: Sets<E>, src: Source, inputs: seq<Input>, now: Time)
    requires Tracks(codec, sets, src, inputs)
    requires FirstSeen(src, inputs).Some? ==> now - FirstSeen(src, inputs).value <= TTL_MS
    ensures Tracks(codec, Evicted(sets, now), src, inputs)
  {
  }

  /** A call that does not claim the id leaves the source's set alone. */
  lemma OthersHarmless<E>(codec: Codec<E>, sets: Sets<E>, src: Source, i: Input, f: Fragment)
    requires f.total == 1 || f.id != src.id
    ensures var sets' := Fed(codec, sets, f, i).0;
            (src.id in sets' <==> src.id in sets) && (src.id in sets ==> sets'[src.id] == sets[src.id])
  {
    if f.total != 1 {
      var empty := FragmentSet(f.total, f.digest, i.author, map[], i.seenAt, None);
      PlacedElsewhere(codec, sets, if f.id in sets then sets[f.id] else empty, f, i.message, src.id);
    }
  }

  lemma PlacedElsewhere<E>(codec: Codec<E>, sets: Sets<E>, s: FragmentSet<E>, f: Fragment, m: MessageId, id: EnvelopeId)
    requires f.id != id
    ensures var sets' := Placed(codec, sets, s, f, m).0;
            (id in sets' <==> id in sets) && (id in sets ==> sets'[id] == sets[id])
  {
  }

  lemma FullSet(s: set<nat>, n: nat)
    requires forall k :: k in s ==> k < n
    ensures |s| <= n
    ensures |s| >= n <==> Covers(s, n)
  {
    BoundedSet(s, n);
    forall k | 0 <= k < n && k !in s ensures |s| < n {
      BoundedSet(s + {k}, n);
    }
    if Covers(s, n) {
      AtLeast(s, n);
    }
  }

  lemma {:induction false} AtLeast(s: set<nat>, n: nat)
    requires Covers(s, n)
    ensures |s| >= n
  {
    if n > 0 {
      AtLeast(s - {n - 1}, n - 1);
    }
  }

  function ChunksAt(src: Source, indices: set<nat>): map<nat, Bytes>
    requires forall k :: k in indices ==> k < |src.chunks|
  {
    map k | k in indices :: src.chunks[k]
  }

  /** The source's set when the pieces in `indices` are stored and not assembled yet. */
  function Partial<E>(src: Source, indices: set<nat>, seen: Time): FragmentSet<E>
    requires forall k :: k in indices ==> k < |src.chunks|
  {
    FragmentSet(|src.chunks|, src.digest, src.author, ChunksAt(src, indices), seen, None)
  }

  /** Placing piece `k` beside the pieces in `indices`, none of them assembled yet. */
  lemma PlacePiece<E>(codec: Codec<E>, sets: Sets<E>, src: Source, indices: set<nat>, k: nat, seen: Time, m: MessageId)
    requires Genuine(codec, src) && k < |src.chunks| && forall j :: j in indices ==> j < |src.chunks|
    ensures Placed(codec, sets, Partial(src, indices, seen), Piece(src, k), m)
         == (var grown: FragmentSet<E> := Partial(src, indices + {k}, seen);
             var envelope := codec.open(Flatten(src.chunks), m);
             if Covers(indices + {k}, |src.chunks|)
             then (sets[src.id := grown.(envelope := envelope)], Complete(envelope.value))
             else (sets[src.id := grown], Pending))
  {
    var n, all := |src.chunks|, indices + {k};
    var grown := ChunksAt(src, all);
    assert ChunksAt(src, indices)[k := src.chunks[k]] == grown;
    assert grown.Keys == all;
    assert |grown| == |all|;
    FullSet(all, n);
    if Covers(all, n) {
      assert Ordered(grown, n) == src.chunks;
      var whole: FragmentSet<E> := Partial(src, all, seen);
      var done := whole.(envelope := codec.open(Flatten(src.chunks), m));
      assert sets[src.id := whole][src.id := done] == sets[src.id := done];
    } else {
      assert |grown| < n;
    }
  }

  /** How one delivery of piece `k` moves the bookkeeping on the sender's side. */
  lemma Booked(src: Source, inputs: seq<Input>, k: nat)
    requires inputs != [] && Claims(src, Last(inputs))
    requires DecodeEnvelopeFragment(Last(inputs).content).value.index == k
    ensures Arrived(src, inputs) == Arrived(src, Init(inputs)) + {k}
    ensures FirstSeen(src, inputs)
         == Some(if FirstSeen(src, Init(inputs)).Some? then FirstSeen(src, Init(inputs)).value else Last(inputs).seenAt)
    ensures CompletedBy(src, inputs)
         == if CompletedBy(src, Init(inputs)).Some? then CompletedBy(src, Init(inputs))
            else if Covers(Arrived(src, inputs), |src.chunks|) then Some(Last(inputs).message) else None
  {
  }

  /** One delivery: the buffer answers what the deliveries so far call for, and still tracks them. */
  lemma DeliveryStep<E>(codec: Codec<E>, kept: Sets<E>, src: Source, inputs: seq<Input>, f: Fragment)
    requires inputs != [] && Genuine(codec, src) && Tracks(codec, kept, src, Init(inputs))
    requires DecodeEnvelopeFragment(Last(inputs).content) == Some(f)
    requires Claims(src, Last(inputs)) && Delivers(src, Last(inputs))
    requires FirstSeen(src, Init(inputs)).None? ==> |kept| < MAX_PENDING_SETS
    ensures Tracks(codec, Fed(codec, kept, f, Last(inputs)).0, src, inputs)
    ensures Fed(codec, kept, f, Last(inputs)).1 == Due(codec, src, inputs)
  {
    var i := Last(inputs);
    var before := Arrived(src, Init(inputs));
    Booked(src, inputs, f.index);
    if CompletedBy(src, Init(inputs)).Some? {
      assert before + {f.index} == before;
      AlreadyComplete(codec, kept, src, Init(inputs), f, i);
    } else {
      var seen := FirstSeen(src, inputs).value;
      PlacePiece(codec, kept, src, before, f.index, seen, i.message);
      assert Fed(codec, kept, f, i) == Placed(codec, kept, Partial(src, before, seen), f, i.message) by {
        if FirstSeen(src, Init(inputs)).Some? {
          assert kept[src.id] == Partial(src, before, seen);
        } else {
          assert ChunksAt(src, before) == map[];
        }
      }
    }
  }

  lemma AlreadyComplete<E>(codec: Codec<E>, kept: Sets<E>, src: Source, inputs: seq<Input>, f: Fragment, i: Input)
    requires Genuine(codec, src) && Tracks(codec, kept, src, inputs) && CompletedBy(src, inputs).Some?
    requires f.index < |src.chunks| && f == Piece(src, f.index) && i.author == src.author
    ensures Fed(codec, kept, f, i) == (kept, Due(codec, src, inputs))
  {
    assert 0 in Arrived(src, inputs);
  }

  /** What a claiming call must be answered: the envelope once nothing is missing, PENDING until then. */
  function Due<E>(codec: Codec<E>, src: Source, inputs: seq<Input>): IngestResult<E> {
    match CompletedBy(src, inputs)
    case None => Pending
    case Some(m) =>
      match codec.open(Flatten(src.chunks), m)
      case None => Invalid
      case Some(envelope) => Complete(envelope)
  }

  lemma {:induction false} BufferTracks<E>(codec: Codec<E>, sets: Sets<E>, src: Source, inputs: seq<Input>)
    requires Genuine(codec, src) && src.id !in sets
    requires Unforged(src, inputs) && InTime(src, inputs) && HasRoom(codec, sets, src, inputs)
    ensures Tracks(codec, After(codec, sets, inputs), src, inputs)
    ensures inputs != [] && Claims(src, Last(inputs)) ==> Answer(codec, sets, inputs) == Due(codec, src, inputs)
  {
    if inputs == [] {
      assert 0 !in Arrived(src, inputs);
    } else {
      var i := Last(inputs);
      assert forall n :: 0 <= n < |inputs| - 1 ==> Init(inputs)[n] == inputs[n];
      assert Claims(src, inputs[|inputs| - 1]) ==> Delivers(src, i);
      BufferTracks(codec, sets, src, Init(inputs));
      var before := After(codec, sets, Init(inputs));
      EvictionSpares(codec, before, src, Init(inputs), i.evictAt);
      var kept := Evicted(before, i.evictAt);
      if Claims(src, i) {
        DeliveryStep(codec, kept, src, inputs, DecodeEnvelopeFragment(i.content).value);
      } else {
        OtherStep(codec, kept, src, inputs);
      }
    }
  }

  lemma OtherStep<E>(codec: Codec<E>, kept: Sets<E>, src: Source, inputs: seq<Input>)
    requires inputs != [] && !Claims(src, Last(inputs)) && Tracks(codec, kept, src, Init(inputs))
    ensures var decoded := DecodeEnvelopeFragment(Last(inputs).content);
            Tracks(codec, if decoded.None? then kept else Fed(codec, kept, decoded.value, Last(inputs)).0, src, inputs)
  {
    var decoded := DecodeEnvelopeFragment(Last(inputs).content);
    if decoded.Some? {
      OthersHarmless(codec, kept, src, Last(inputs), decoded.value);
    }
  }

  // ---------------------------------------------------------------- reading the bookkeeping

  /** An index counts as arrived exactly when some call of the history delivered it. */
  lemma {:induction false} ArrivedIff(src: Source, inputs: seq<Input>, k: nat)
    ensures k in Arrived(src, inputs) <==>
      exists n :: 0 <= n < |inputs| && Claims(src, inputs[n]) && DecodeEnvelopeFragment(inputs[n].content).value.index == k
  {
    if inputs != [] {
      ArrivedIff(src, Init(inputs), k);
      assert forall n :: 0 <= n < |inputs| - 1 ==> Init(inputs)[n] == inputs[n];
      assert inputs[|inputs| - 1] == Last(inputs);
    }
  }

  /** Once something is due as COMPLETE, the very same envelope stays due after any further calls. */
  lemma {:induction false} DueIsFinal<E>(codec: Codec<E>, src: Source, inputs: seq<Input>, more: seq<Input>)
    requires CompletedBy(src, inputs).Some?
    ensures CompletedBy(src, inputs + more) == CompletedBy(src, inputs)
    ensures Due(codec, src, inputs + more) == Due(codec, src, inputs)
  {
    if more == [] {
      assert inputs + more == inputs;
    } else {
      DueIsFinal(codec, src, inputs, Init(more));
      assert Init(inputs + more) == inputs + Init(more);
    }
  }

  // ---------------------------------------------------------------- many envelopes at once

  function SeenIds(inputs: seq<Input>): set<EnvelopeId> {
    if inputs == [] then {} else
    var decoded := DecodeEnvelopeFragment(Last(inputs).content);
    if decoded.Some? && decoded.value.total != 1 then SeenIds(Init(inputs)) + {decoded.value.id} else SeenIds(Init(inputs))
  }

  lemma FedKeys<E>(codec: Codec<E>, sets: Sets<E>, f: Fragment, i: Input)
    ensures Fed(codec, sets, f, i).0.Keys <= sets.Keys + (if f.total == 1 then {} else {f.id})
  {
  }

  lemma {:induction false} OnlySeenStored<E>(codec: Codec<E>, inputs: seq<Input>)
    ensures After(codec, map[], inputs).Keys <= SeenIds(inputs)
  {
    if inputs != [] {
      OnlySeenStored(codec, Init(inputs));
      var kept := Evicted(After(codec, map[], Init(inputs)), Last(inputs).evictAt);
      assert kept.Keys <= SeenIds(Init(inputs));
      var decoded := DecodeEnvelopeFragment(Last(inputs).content);
      if decoded.Some? {
        FedKeys(codec, kept, decoded.value, Last(inputs));
      }
    }
  }

  lemma {:induction false} UnseenIff(src: Source, inputs: seq<Input>)
    ensures FirstSeen(src, inputs).None? <==> src.id !in SeenIds(inputs)
  {
    if inputs != [] {
      UnseenIff(src, Init(inputs));
    }
  }

  /** An exchange among at most 500 envelopes always has room for the next one. */
  lemma {:induction false} RoomForAll<E>(codec: Codec<E>, src: Source, ids: set<EnvelopeId>, inputs: seq<Input>)
    requires |ids| <= MAX_PENDING_SETS && src.id in ids && SeenIds(inputs) <= ids
    ensures HasRoom(codec, map[], src, inputs)
  {
    if inputs != [] {
      RoomForAll(codec, src, ids, Init(inputs));
      UnseenIff(src, Init(inputs));
      if src.id !in SeenIds(Init(inputs)) {
        OnlySeenStored(codec, Init(inputs));
        var kept := Evicted(After(codec, map[], Init(inputs)), Last(inputs).evictAt);
        Subset(kept.Keys + {src.id}, ids);
      }
    }
  }

  /**
   * Any number of genuine envelopes in any interleaving, order and duplication, among any other traffic,
   * as long as all fragments seen carry at most 500 ids: every claiming call gets exactly what is due.
   */
  lemma ExchangeReassembles<E>(codec: Codec<E>, inputs: seq<Input>, src: Source)
    requires |SeenIds(inputs)| <= MAX_PENDING_SETS
    requires Genuine(codec, src) && Unforged(src, inputs) && InTime(src, inputs)
    requires inputs != [] && Claims(src, Last(inputs))
    ensures Answer(codec, map[], inputs) == Due(codec, src, inputs)
  {
    RoomForAll(codec, src, SeenIds(inputs), inputs);
    BufferTracks(codec, map[], src, inputs);
  }

  // ---------------------------------------------------------------- the splitter makes genuine sources

  /** What the receiver must know a published payload as. */
  function Published<E>(codec: Codec<E>, payload: Bytes, id: EnvelopeId, author: Author, budget: int): Source {
    Source(id, author, codec.digest(payload), Chunks(Split(payload, id, codec.digest(payload), MaxChunkBytes(budget))))
  }

  /** Every split into two or more fragments is a genuine source whose payload is the one published. */
  lemma PublishedIsGenuine<E>(codec: Codec<E>, payload: Bytes, id: EnvelopeId, author: Author, budget: int)
    requires forall m :: codec.open(payload, m).Some?
    requires |Split(payload, id, codec.digest(payload), MaxChunkBytes(budget))| >= 2
    ensures var src := Published(codec, payload, id, author, budget);
            && Genuine(codec, src) && Flatten(src.chunks) == payload
            && forall k :: 0 <= k < |src.chunks| ==>
                 Piece(src, k) == Split(payload, id, codec.digest(payload), MaxChunkBytes(budget))[k]
  {
    SplitLosesNothing(payload, id, codec.digest(payload), MaxChunkBytes(budget));
  }

  /** A call that brings a wire fragment of the source, in any marker-free visible text, delivers that piece. */
  lemma WireDelivers(src: Source, k: nat, prefix: Text, suffix: Text, i: Input)
    requires 2 <= |src.chunks| <= FRAGMENT_MAX_COUNT && k < |src.chunks| && !HasMarker(prefix, EVENT_START)
    requires i.content == prefix + WireFragment(Piece(src, k)) + suffix && i.author == src.author
    ensures Claims(src, i) && Delivers(src, i) && DecodeEnvelopeFragment(i.content) == Some(Piece(src, k))
  {
    FragmentRoundTrip(prefix, Piece(src, k), suffix);
  }

  // ---------------------------------------------------------------- from payload to payload

  /** The call brings wire fragment `k` of the source, in marker-free visible text, from its author. */
  ghost predicate Bears(src: Source, k: int, i: Input) {
    0 <= k < |src.chunks| <= FRAGMENT_MAX_COUNT && i.author == src.author &&
    exists prefix, suffix :: !HasMarker(prefix, EVENT_START) && i.content == prefix + WireFragment(Piece(src, k)) + suffix
  }

  lemma BearsDelivers(src: Source, k: int, i: Input)
    requires 2 <= |src.chunks| <= FRAGMENT_MAX_COUNT && Bears(src, k, i)
    ensures Claims(src, i) && Delivers(src, i) && DecodeEnvelopeFragment(i.content).value.index == k
  {
    var prefix, suffix :| !HasMarker(prefix, EVENT_START) && i.content == prefix + WireFragment(Piece(src, k)) + suffix;
    WireDelivers(src, k, prefix, suffix, i);
  }

  /** Every call that claims the source's id brings one of its wire fragments. */
  ghost predicate OnlyBears(src: Source, inputs: seq<Input>) {
    forall n :: 0 <= n < |inputs| && Claims(src, inputs[n]) ==> exists k :: Bears(src, k, inputs[n])
  }

  ghost predicate Borne(src: Source, k: int, inputs: seq<Input>) {
    exists n :: 0 <= n < |inputs| && Bears(src, k, inputs[n])
  }

  /** Some fragment was in no message yet. */
  ghost predicate Missing(src: Source, inputs: seq<Input>) {
    exists k :: 0 <= k < |src.chunks| && !Borne(src, k, inputs)
  }

  lemma BearsUnforged(src: Source, inputs: seq<Input>)
    requires 2 <= |src.chunks| <= FRAGMENT_MAX_COUNT && OnlyBears(src, inputs)
    ensures Unforged(src, inputs)
  {
    forall n | 0 <= n < |inputs| && Claims(src, inputs[n]) ensures Delivers(src, inputs[n]) {
      var k :| Bears(src, k, inputs[n]);
      BearsDelivers(src, k, inputs[n]);
    }
  }

  lemma MissingIff(src: Source, inputs: seq<Input>)
    requires 2 <= |src.chunks| <= FRAGMENT_MAX_COUNT && OnlyBears(src, inputs)
    ensures Missing(src, inputs) <==> !AllArrived(src, inputs)
  {
    forall k | 0 <= k < |src.chunks| ensures k in Arrived(src, inputs) <==> Borne(src, k, inputs) {
      BorneIff(src, inputs, k);
    }
  }

  lemma BorneIff(src: Source, inputs: seq<Input>, k: nat)
    requires 2 <= |src.chunks| <= FRAGMENT_MAX_COUNT && OnlyBears(src, inputs)
    ensures k in Arrived(src, inputs) <==> Borne(src, k, inputs)
  {
    ArrivedIff(src, inputs, k);
    if k in Arrived(src, inputs) {
      var n :| 0 <= n < |inputs| && Claims(src, inputs[n]) && DecodeEnvelopeFragment(inputs[n].content).value.index == k;
      var j :| Bears(src, j, inputs[n]);
      BearsDelivers(src, j, inputs[n]);
    }
    if Borne(src, k, inputs) {
      var n :| 0 <= n < |inputs| && Bears(src, k, inputs[n]);
      BearsDelivers(src, k, inputs[n]);
    }
  }

  lemma {:induction false} CompletedBySomebody(src: Source, inputs: seq<Input>)
    ensures CompletedBy(src, inputs).Some? ==> exists n :: 0 <= n < |inputs| && inputs[n].message == CompletedBy(src, inputs).value
  {
    if inputs != [] {
      CompletedBySomebody(src, Init(inputs));
      if CompletedBy(src, Init(inputs)).Some? {
        var n :| 0 <= n < |inputs| - 1 && Init(inputs)[n].message == CompletedBy(src, inputs).value;
        assert inputs[n] == Init(inputs)[n];
      } else {
        assert inputs[|inputs| - 1] == Last(inputs);
      }
    }
  }

  /**
   * End to end: a payload is split at any budget into two to 255 fragments and sent in messages of its
   * author. However the messages are reordered, repeated and mixed with any traffic that does not use its
   * id, while its fragments are within the TTL and the buffer has room, each of them is answered PENDING as
   * long as some fragment was in no message yet, and from then on COMPLETE with the envelope that the
   * published payload opens to.
   */
  lemma PublishedPayloadArrives<E>(codec: Codec<E>, payload: Bytes, id: EnvelopeId, author: Author, budget: int,
                                   inputs: seq<Input>)
    requires forall m :: codec.open(payload, m).Some?
    requires 2 <= |Split(payload, id, codec.digest(payload), MaxChunkBytes(budget))| <= FRAGMENT_MAX_COUNT
    requires var src := Published(codec, payload, id, author, budget);
             && OnlyBears(src, inputs) && InTime(src, inputs) && HasRoom(codec, map[], src, inputs)
             && inputs != [] && Claims(src, Last(inputs))
    ensures var src, answer := Published(codec, payload, id, author, budget), Answer(codec, map[], inputs);
            && (Missing(src, inputs) ==> answer == Pending)
            && (!Missing(src, inputs) ==>
                  exists n :: 0 <= n < |inputs| && codec.open(payload, inputs[n].message).Some? &&
                    answer == Complete(codec.open(payload, inputs[n].message).value))
  {
    var src := Published(codec, payload, id, author, budget);
    PublishedIsGenuine(codec, payload, id, author, budget);
    BearsUnforged(src, inputs);
    MissingIff(src, inputs);
    BufferTracks(codec, map[], src, inputs);
    CompletedBySomebody(src, inputs);
  }
}

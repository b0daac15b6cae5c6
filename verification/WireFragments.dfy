/**
 * Splitting one deflated envelope into self-describing wire fragments, reading a fragment back out
 * of a physical message, and laying fragments out under Discord's hard message limit.
 */
module WireFragments {
  import opened Domain
  import opened HiddenCodec

  const FRAGMENT_VERSION: Byte := 1
  const HEADER_BYTES := 23
  const FRAGMENT_MAX_COUNT := 255
  const MESSAGE_LIMIT := 1950

  type EnvelopeId = b: Bytes | |b| == 16 witness seq(16, i => 0)
  type Digest = b: Bytes | |b| == 4 witness seq(4, i => 0)

  datatype Fragment = Fragment(id: EnvelopeId, index: nat, total: nat, digest: Digest, chunk: Bytes)

  datatype SplitError = EnvelopeTooLarge(bytes: nat, fragments: nat)

  // ---------------------------------------------------------------- split arithmetic

  /** Payload bytes per fragment for a budget of wire characters; never below one. */
  function MaxChunkBytes(budget: int): (n: nat)
    ensures n >= 1
  {
    var encodedBudget := if budget < 4 then 0 else (budget - 4) / 3;
    var rawBudget := encodedBudget * 3 / 4;
    if rawBudget - HEADER_BYTES < 1 then 1 else rawBudget - HEADER_BYTES
  }

  function FragmentCount(bytes: nat, size: nat): (n: nat)
    requires size >= 1
    ensures n >= 1
  {
    if bytes == 0 then 1 else (bytes - 1) / size + 1
  }

  /** The rounded-up quotient is the least number of chunks that holds every byte. */
  lemma FragmentCountIsCeiling(bytes: nat, size: nat)
    requires size >= 1
    ensures bytes <= FragmentCount(bytes, size) * size
    ensures bytes > 0 ==> (FragmentCount(bytes, size) - 1) * size < bytes
  {
    if bytes > 0 {
      var q := (bytes - 1) / size;
      assert bytes - 1 == q * size + (bytes - 1) % size;
      assert (q + 1) * size == q * size + size;
    } else {
      assert 1 * size == size;
    }
  }

  /** `subarray` clamps both ends to the payload. */
  function Chunk(payload: Bytes, size: nat, index: nat): Bytes {
    payload[Min(index * size, |payload|)..Min((index + 1) * size, |payload|)]
  }

  function Min(a: int, b: int): int { if a < b then a else b }

  function Header(id: EnvelopeId, index: Byte, total: Byte, digest: Digest): (h: Bytes)
    ensures |h| == HEADER_BYTES
  {
    [FRAGMENT_VERSION] + id + [index, total] + digest
  }

  function WireFragment(f: Fragment): Text
    requires f.index < 256 && f.total < 256
  {
    HiddenEncode(Header(f.id, f.index as Byte, f.total as Byte, f.digest) + f.chunk)
  }

  /** The fragments a payload is cut into. */
  function Split(payload: Bytes, id: EnvelopeId, digest: Digest, size: nat): (fs: seq<Fragment>)
    requires size >= 1
    ensures |fs| == FragmentCount(|payload|, size)
    ensures forall i :: 0 <= i < |fs| ==> fs[i] == Fragment(id, i, |fs|, digest, Chunk(payload, size, i))
  {
    var total := FragmentCount(|payload|, size);
    seq(total, i requires 0 <= i < total => Fragment(id, i, total, digest, Chunk(payload, size, i)))
  }

  function Flatten(chunks: seq<Bytes>): Bytes {
    if chunks == [] then [] else chunks[0] + Flatten(chunks[1..])
  }

  function Chunks(fs: seq<Fragment>): (cs: seq<Bytes>)
    ensures |cs| == |fs| && forall i :: 0 <= i < |cs| ==> cs[i] == fs[i].chunk
  {
    seq(|fs|, i requires 0 <= i < |fs| => fs[i].chunk)
  }

  method BuildEnvelopeWireFragments(payload: Bytes, digest: Digest, envelopeId: EnvelopeId, maxFragmentChars: int)
    returns (r: Result<seq<Text>, SplitError>)
    ensures var fs := Split(payload, envelopeId, digest, MaxChunkBytes(maxFragmentChars));
            if |fs| > FRAGMENT_MAX_COUNT then r == Err(EnvelopeTooLarge(|payload|, |fs|))
            else r.Ok? && |r.value| == |fs| && forall i :: 0 <= i < |fs| ==> r.value[i] == WireFragment(fs[i])
  {
    var maxChunkBytes := MaxChunkBytes(maxFragmentChars);
    var total := FragmentCount(|payload|, maxChunkBytes);
    if total > FRAGMENT_MAX_COUNT {
      return Err(EnvelopeTooLarge(|payload|, total));
    }
    ghost var fs := Split(payload, envelopeId, digest, maxChunkBytes);
    var fragments: seq<Text> := [];
    for index := 0 to total
      invariant |fragments| == index
      invariant forall i :: 0 <= i < index ==> fragments[i] == WireFragment(fs[i])
    {
      var header := WriteHeader(envelopeId, index as Byte, total as Byte, digest);
      var wire := HiddenEncode(header[..] + Chunk(payload, maxChunkBytes, index));
      assert wire == WireFragment(fs[index]);
      fragments := fragments + [wire];
    }
    return Ok(fragments);
  }

  method WriteHeader(envelopeId: EnvelopeId, index: Byte, total: Byte, digest: Digest) returns (header: array<Byte>)
    ensures fresh(header) && header[..] == Header(envelopeId, index, total, digest)
  {
    header := new Byte[HEADER_BYTES](i => 0);
    header[0] := FRAGMENT_VERSION;
    CopyInto(envelopeId, header, 1);
    assert header[..17] == [FRAGMENT_VERSION] + envelopeId;
    header[17] := index;
    header[18] := total;
    ghost var front := header[..19];
    assert front == [FRAGMENT_VERSION] + envelopeId + [index, total];
    CopyInto(digest, header, 19);
    assert header[..] == front + digest;
  }

  method CopyInto(source: Bytes, target: array<Byte>, offset: nat)
    requires offset + |source| <= target.Length
    modifies target
    ensures target[..] == old(target[..offset]) + source + old(target[offset + |source|..])
  {
    for k := 0 to |source|
      invariant forall j :: 0 <= j < target.Length ==>
                  target[j] == if offset <= j < offset + k then source[j - offset] else old(target[j])
    {
      target[offset + k] := source[k];
    }
  }

  // ---------------------------------------------------------------- reading a fragment

  function DecodeEnvelopeFragment(content: Text): Option<Fragment> {
    match HiddenDecode(content)
    case None => None
    case Some(bytes) => ParseFragment(bytes)
  }

  function ParseFragment(bytes: Bytes): (r: Option<Fragment>)
    ensures r.Some? ==> r.value.index < r.value.total <= FRAGMENT_MAX_COUNT
  {
    if |bytes| < HEADER_BYTES || bytes[0] != FRAGMENT_VERSION then None else
    var index, total := bytes[17] as nat, bytes[18] as nat;
    if total < 1 || total > FRAGMENT_MAX_COUNT || index >= total then None
    else Some(Fragment(bytes[1..17], index, total, bytes[19..23], bytes[23..]))
  }

  // ---------------------------------------------------------------- properties of the split

  /** A fragment embedded anywhere after marker-free text reads back as itself. */
  lemma FragmentRoundTrip(prefix: Text, f: Fragment, suffix: Text)
    requires !HasMarker(prefix, EVENT_START)
    requires f.index < f.total <= FRAGMENT_MAX_COUNT
    ensures DecodeEnvelopeFragment(prefix + WireFragment(f) + suffix) == Some(f)
  {
    var bytes := Header(f.id, f.index as Byte, f.total as Byte, f.digest) + f.chunk;
    HiddenRoundTrip(prefix, bytes, suffix);
    assert bytes[1..17] == f.id && bytes[19..23] == f.digest && bytes[23..] == f.chunk;
    assert bytes[17] as nat == f.index && bytes[18] as nat == f.total;
  }

  lemma {:induction false} FlattenPrefix(payload: Bytes, size: nat, cs: seq<Bytes>, n: nat)
    requires n <= |cs| && forall i :: 0 <= i < |cs| ==> cs[i] == Chunk(payload, size, i)
    ensures Flatten(cs[..n]) == payload[..Min(n * size, |payload|)]
  {
    if n > 0 {
      FlattenPrefix(payload, size, cs, n - 1);
      FlattenSnoc(cs[..n - 1], cs[n - 1]);
      assert cs[..n - 1] + [cs[n - 1]] == cs[..n];
      Monotone(n - 1, n, size);
    }
  }

  lemma {:induction false} FlattenSnoc(cs: seq<Bytes>, c: Bytes)
    ensures Flatten(cs + [c]) == Flatten(cs) + c
  {
    if cs == [] {
      assert cs + [c] == [c];
      assert Flatten([c]) == c + Flatten([]);
    } else {
      FlattenSnoc(cs[1..], c);
      assert (cs + [c])[1..] == cs[1..] + [c];
    }
  }

  /** Nothing is lost, repeated or reordered: the chunks concatenate to the payload. */
  lemma SplitLosesNothing(payload: Bytes, id: EnvelopeId, digest: Digest, size: nat)
    requires size >= 1
    ensures Flatten(Chunks(Split(payload, id, digest, size))) == payload
  {
    var cs := Chunks(Split(payload, id, digest, size));
    FlattenPrefix(payload, size, cs, |cs|);
    assert cs[..|cs|] == cs;
    FragmentCountIsCeiling(|payload|, size);
  }

  lemma ChunkFits(payload: Bytes, size: nat, index: nat)
    ensures |Chunk(payload, size, index)| <= size
  {
    assert (index + 1) * size == index * size + size;
  }

  /** Header, base64 rounding and the threefold expansion together never exceed the caller's budget. */
  lemma FragmentWithinBudget(f: Fragment, budget: int)
    requires f.index < 256 && f.total < 256
    requires budget >= 100 && |f.chunk| <= MaxChunkBytes(budget)
    ensures |WireFragment(f)| <= budget
  {
    BudgetArithmetic(HEADER_BYTES + |f.chunk|, budget);
  }

  lemma BudgetArithmetic(bytes: int, budget: int)
    requires budget >= 100 && HEADER_BYTES <= bytes <= HEADER_BYTES + MaxChunkBytes(budget)
    ensures 4 + 3 * ((4 * bytes + 2) / 3) <= budget
  {
    var e := (budget - 4) / 3;
    assert e >= 32 && bytes <= e * 3 / 4;
    RoundedUp(bytes, e);
  }

  lemma RoundedUp(bytes: int, e: int)
    requires bytes <= e * 3 / 4
    ensures (4 * bytes + 2) / 3 <= e
  {
    assert 4 * bytes <= 3 * e;
  }

  /** And they use it up: a chunk fits exactly when it is no longer than the computed size. */
  lemma FragmentFitsIff(f: Fragment, budget: int)
    requires f.index < 256 && f.total < 256 && budget >= 100
    ensures |WireFragment(f)| <= budget <==> |f.chunk| <= MaxChunkBytes(budget)
  {
    if |f.chunk| <= MaxChunkBytes(budget) {
      FragmentWithinBudget(f, budget);
    } else {
      var e, bytes := (budget - 4) / 3, HEADER_BYTES + |f.chunk|;
      assert 4 * bytes > 3 * e;
    }
  }

  /**
   * For a payload with at least one byte, the budget is respected by every fragment exactly when it
   * is at least 100 characters: below that the smallest possible fragment is already too long.
   */
  lemma SplitWithinBudgetIff(payload: Bytes, id: EnvelopeId, digest: Digest, budget: int)
    requires payload != [] && |Split(payload, id, digest, MaxChunkBytes(budget))| <= FRAGMENT_MAX_COUNT
    ensures var fs := Split(payload, id, digest, MaxChunkBytes(budget));
            (forall i :: 0 <= i < |fs| ==> |WireFragment(fs[i])| <= budget) <==> budget >= 100
  {
    var size := MaxChunkBytes(budget);
    var fs := Split(payload, id, digest, size);
    if budget >= 100 {
      forall i | 0 <= i < |fs| ensures |WireFragment(fs[i])| <= budget {
        ChunkFits(payload, size, i);
        FragmentWithinBudget(fs[i], budget);
      }
    } else {
      assert size == 1;
      assert |fs[0].chunk| == 1;
      assert |WireFragment(fs[0])| == 100;
    }
  }

  /** The split is refused exactly for payloads longer than 255 full chunks. */
  lemma TooLargeIff(payload: Bytes, id: EnvelopeId, digest: Digest, size: nat)
    requires size >= 1
    ensures |Split(payload, id, digest, size)| > FRAGMENT_MAX_COUNT <==> |payload| > FRAGMENT_MAX_COUNT * size
  {
    FragmentCountIsCeiling(|payload|, size);
    var n := FragmentCount(|payload|, size);
    if n > 255 {
      Monotone(255, n - 1, size);
    } else {
      Monotone(n, 255, size);
    }
  }

  lemma Monotone(a: nat, b: nat, size: nat)
    requires a <= b
    ensures a * size <= b * size
  {
  }
}

/** The canonical storage encoding of genes: 7 traits, 5 bits each, trait 0 in the
    least-significant field (bits 0..4), trait i in bits 5i..5i+4. */
module GeneCodec {
  import opened Outcomes

  /** Number of trait slots in a gene. */
  const TraitCount: nat := 7
  /** Number of values a 5-bit field holds. */
  const FieldSize: nat := 32

  type Trait = t: nat | t < 32

  /** 32^i, the weight of field i. */
  function Pow32(i: nat): (r: nat)
    ensures r > 0
  {
    if i == 0 then 1 else FieldSize * Pow32(i - 1)
  }

  /** The number whose fields, from field 0 upward, hold `traits`. */
  function Pack(traits: seq<Trait>): nat
  {
    if traits == [] then 0 else traits[0] + FieldSize * Pack(traits[1..])
  }

  /** `genes >> 5i`: the genes with the i lowest fields shifted out. */
  function Shr(genes: nat, i: nat): nat
  {
    if i == 0 then genes else Shr(genes, i - 1) / FieldSize
  }

  /** Field i of `genes`: `(genes & (31 << 5i)) >> 5i`. */
  function Field(genes: nat, i: nat): Trait
  {
    Shr(genes, i) % FieldSize
  }

  /** The 7 traits stored in `genes`, slot 0 first. */
  function Unpack(genes: nat): seq<Trait>
  {
    seq(TraitCount, i requires 0 <= i < TraitCount => Field(genes, i))
  }

  /** Packing n traits uses only the n lowest fields. */
  lemma {:induction false} PackBound(traits: seq<Trait>)
    ensures Pack(traits) < Pow32(|traits|)
  {
    if traits != [] {
      PackBound(traits[1..]);
    }
  }

  /** Shifting out i fields of a packed sequence leaves the packing of its tail. */
  lemma {:induction false} ShrPack(traits: seq<Trait>, i: nat)
    requires i <= |traits|
    ensures Shr(Pack(traits), i) == Pack(traits[i..])
  {
    if i > 0 {
      ShrPack(traits, i - 1);
      var tail := traits[i - 1..];
      assert tail[1..] == traits[i..];
    }
  }

  /** Trait i sits in field i of the packed value. */
  lemma FieldOfPack(traits: seq<Trait>, i: nat)
    requires i < |traits|
    ensures Field(Pack(traits), i) == traits[i]
  {
    ShrPack(traits, i);
  }

  /** Round trip: decoding an encoded 7-trait sequence gives it back. */
  lemma UnpackPack(traits: seq<Trait>)
    requires |traits| == TraitCount
    ensures Unpack(Pack(traits)) == traits
  {
    forall i | 0 <= i < TraitCount
      ensures Unpack(Pack(traits))[i] == traits[i]
    {
      FieldOfPack(traits, i);
    }
  }

  /** The fields from..from+count-1 of `genes`, lowest first. */
  function Fields(genes: nat, from: nat, count: nat): seq<Trait>
    decreases count
  {
    if count == 0 then [] else [Field(genes, from)] + Fields(genes, from + 1, count - 1)
  }

  lemma {:induction false} FieldsAt(genes: nat, from: nat, count: nat, j: nat)
    requires j < count
    ensures |Fields(genes, from, count)| == count
    ensures Fields(genes, from, count)[j] == Field(genes, from + j)
    decreases count
  {
    if j > 0 {
      FieldsAt(genes, from + 1, count - 1, j - 1);
    } else if count > 1 {
      FieldsAt(genes, from + 1, count - 1, 0);
    }
  }

  lemma {:induction false} PackFields(genes: nat, from: nat, count: nat)
    requires Shr(genes, from) < Pow32(count)
    ensures Pack(Fields(genes, from, count)) == Shr(genes, from)
    decreases count
  {
    if count > 0 {
      var fs := Fields(genes, from, count);
      assert fs[1..] == Fields(genes, from + 1, count - 1);
      PackFields(genes, from + 1, count - 1);
    }
  }

  /** Round trip the other way: a gene value below 2^35 is the encoding of its decoding. */
  lemma PackUnpack(genes: nat)
    requires genes < Pow32(TraitCount)
    ensures Pack(Unpack(genes)) == genes
  {
    forall j | 0 <= j < TraitCount
      ensures Unpack(genes)[j] == Fields(genes, 0, TraitCount)[j]
    {
      FieldsAt(genes, 0, TraitCount, j);
    }
    FieldsAt(genes, 0, TraitCount, 0);
    assert Unpack(genes) == Fields(genes, 0, TraitCount);
    PackFields(genes, 0, TraitCount);
  }

  /** Encoding is injective on 7-trait sequences. */
  lemma PackInjective(a: seq<Trait>, b: seq<Trait>)
    requires |a| == TraitCount && |b| == TraitCount
    requires Pack(a) == Pack(b)
    ensures a == b
  {
    UnpackPack(a);
    UnpackPack(b);
  }

  /** encodeTraits: starting from 0, shift left by 5 and OR in the next trait, from
      trait 6 down to trait 0. Fails if the list is not 7 long or a trait does not
      fit in 5 bits. */
  method EncodeTraits(traits: seq<nat>) returns (r: Result<nat>)
    ensures r.Ok? <==> |traits| == TraitCount && forall i :: 0 <= i < |traits| ==> traits[i] < FieldSize
    ensures !r.Ok? ==> r.error == (if |traits| != TraitCount then WrongTraitCount else TraitTooWide)
    ensures r.Ok? ==> r.value < Pow32(TraitCount)
    ensures r.Ok? ==> Unpack(r.value) == traits
  {
    if |traits| != TraitCount {
      return Err(WrongTraitCount);
    }
    var k := 0;
    while k < TraitCount
      invariant 0 <= k <= TraitCount
      invariant forall j :: 0 <= j < k ==> traits[j] < FieldSize
    {
      if traits[k] >= FieldSize {
        return Err(TraitTooWide);
      }
      k := k + 1;
    }
    var valid: seq<Trait> := traits;
    var genes: nat := 0;
    var i := 0;
    while i < TraitCount
      invariant 0 <= i <= TraitCount
      invariant genes == Pack(valid[TraitCount - i..])
    {
      var slot := TraitCount - 1 - i;
      assert valid[slot..][1..] == valid[slot + 1..];
      genes := genes * FieldSize + valid[slot];
      i := i + 1;
    }
    assert valid[0..] == valid;
    PackBound(valid);
    UnpackPack(valid);
    r := Ok(genes);
  }

  /** decodeGenes: for i = 0..6, mask out bits 5i..5i+4 and shift them down. */
  method DecodeGenes(genes: nat) returns (traits: seq<Trait>)
    ensures |traits| == TraitCount
    ensures forall i :: 0 <= i < TraitCount ==> traits[i] == Shr(genes, i) % FieldSize
    ensures genes < Pow32(TraitCount) ==> Pack(traits) == genes
  {
    traits := [];
    var shifted := genes;
    var i := 0;
    while i < TraitCount
      invariant 0 <= i <= TraitCount
      invariant |traits| == i
      invariant shifted == Shr(genes, i)
      invariant forall j :: 0 <= j < i ==> traits[j] == Field(genes, j)
    {
      traits := traits + [shifted % FieldSize];
      shifted := shifted / FieldSize;
      i := i + 1;
    }
    assert traits == Unpack(genes);
    if genes < Pow32(TraitCount) {
      PackUnpack(genes);
    }
  }
}

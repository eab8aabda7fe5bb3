/**
 * Batch entry identifiers: getEntries (src/utils.ts) names the item at global offset k
 * `uuid + "__" + k`, and processConcurrentBatches recovers k as `id.split('__')[1]`.
 */
module EntryIds {
  import opened Wrappers

  const Separator: string := "__"

  predicate IsDigit(c: char)
  {
    '0' <= c <= '9'
  }

  predicate IsDigits(s: string)
  {
    forall i :: 0 <= i < |s| ==> IsDigit(s[i])
  }

  function DigitChar(d: nat): (c: char)
    requires d < 10
    ensures IsDigit(c) && c as int - '0' as int == d
  {
    ('0' as int + d) as char
  }

  /** The decimal text of a non-negative integer, as a template literal `${n}` writes it. */
  function Decimal(n: nat): (r: string)
    ensures |r| > 0 && IsDigits(r)
    ensures |r| > 1 ==> r[0] != '0'
    decreases n
  {
    if n < 10 then [DigitChar(n)] else Decimal(n / 10) + [DigitChar(n % 10)]
  }

  /** The value of a string of decimal digits (the reading `Number(s)` gives it). */
  function DigitsValue(s: string): nat
    requires IsDigits(s)
  {
    if s == [] then 0
    else DigitsValue(s[..|s| - 1]) * 10 + (s[|s| - 1] as int - '0' as int)
  }

  /** Reading the decimal text back gives the number: `Decimal` is injective. */
  lemma {:induction false} DecimalRoundTrip(n: nat)
    ensures DigitsValue(Decimal(n)) == n
    decreases n
  {
    var r := Decimal(n);
    if n >= 10 {
      DecimalRoundTrip(n / 10);
      assert r[..|r| - 1] == Decimal(n / 10);
    }
  }

  /** True when the separator `__` starts at index i of s. */
  predicate SepAt(s: string, i: int)
  {
    0 <= i && i + 1 < |s| && s[i] == '_' && s[i + 1] == '_'
  }

  /** `s.indexOf('__', from)`: the first separator at or after `from`. */
  function FindSep(s: string, from: nat): (r: Option<nat>)
    ensures r.Some? ==> from <= r.value && SepAt(s, r.value)
    ensures r.Some? ==> forall i :: from <= i < r.value ==> !SepAt(s, i)
    ensures r.None? ==> forall i :: from <= i ==> !SepAt(s, i)
    decreases |s| - from
  {
    if from + 1 >= |s| then None
    else if s[from] == '_' && s[from + 1] == '_' then Some(from)
    else FindSep(s, from + 1)
  }

  /**
   * `s.split('__')[1]`: the text between the first separator and the next one (or the
   * end of s); `None` (undefined) when s holds no separator.
   */
  function SecondSegment(s: string): (r: Option<string>)
    ensures r.None? <==> forall i :: !SepAt(s, i)
    ensures r.Some? ==> |r.value| + 2 <= |s|
    ensures r.Some? ==> forall i :: !SepAt(r.value, i)
  {
    match FindSep(s, 0)
    case None => None
    case Some(p) =>
      match FindSep(s, p + 2)
      case None =>
        var t := s[p + 2..];
        assert forall i :: SepAt(t, i) ==> SepAt(s, p + 2 + i);
        Some(t)
      case Some(q) =>
        var t := s[p + 2..q];
        assert forall i :: SepAt(t, i) ==> SepAt(s, p + 2 + i) && p + 2 + i < q;
        Some(t)
  }

  /** `message.Id?.split('__')[1]`. */
  function DecodeId(id: Option<string>): (r: Option<string>)
    ensures id.None? ==> r.None?
    ensures r.Some? ==> id.Some? && |r.value| + 2 <= |id.value|
    ensures r.Some? ==> forall i :: !SepAt(r.value, i)
  {
    match id
    case None => None
    case Some(s) => SecondSegment(s)
  }

  /** The identifier getEntries gives the item at offset k: `${idPrefix}${k}` with idPrefix = uuid + '__'. */
  function EncodeId(uuid: string, k: nat): string
  {
    uuid + Separator + Decimal(k)
  }

  /**
   * A prefix the decoder cannot mistake for part of the separator: every '_' in it is
   * followed by a character other than '_'. A UUID, which has no '_' at all, is one.
   */
  predicate ValidPrefix(uuid: string)
  {
    forall i :: 0 <= i < |uuid| && uuid[i] == '_' ==> i + 1 < |uuid| && uuid[i + 1] != '_'
  }

  /** Decoding an encoded identifier yields exactly the decimal offset it was built from. */
  lemma IdRoundTrip(uuid: string, k: nat)
    requires ValidPrefix(uuid)
    ensures SecondSegment(EncodeId(uuid, k)) == Some(Decimal(k))
    ensures DigitsValue(Decimal(k)) == k
  {
    var s := EncodeId(uuid, k);
    var p := |uuid|;
    var d := Decimal(k);
    assert s[p] == '_' && s[p + 1] == '_';
    assert SepAt(s, p);
    forall i | 0 <= i < p
      ensures !SepAt(s, i)
    {
      assert s[i] == uuid[i];
      if s[i] == '_' {
        assert s[i + 1] == uuid[i + 1];
      }
    }
    var first := FindSep(s, 0);
    assert first == Some(p);
    forall i | p + 2 <= i
      ensures !SepAt(s, i)
    {
      if i < |s| {
        assert s[i] == d[i - p - 2];
      }
    }
    assert FindSep(s, p + 2) == None;
    assert s[p + 2..] == d;
    DecimalRoundTrip(k);
  }

  /** Different offsets get different identifiers, and different decoded texts. */
  lemma DistinctOffsets(uuid: string, j: nat, k: nat)
    requires ValidPrefix(uuid) && j != k
    ensures EncodeId(uuid, j) != EncodeId(uuid, k)
    ensures Decimal(j) != Decimal(k)
  {
    IdRoundTrip(uuid, j);
    IdRoundTrip(uuid, k);
  }
}

/**
 * The length-safety rule for embed fields: a value longer than the platform's
 * field limit is hard-cut into consecutive slices of at most that length, one
 * field per slice, the later ones named with a " (cont.)" suffix.
 */
module Chunking {
  import opened Ascii

  /** `MAX_FIELD_LENGTH`: the longest value a single embed field may carry. */
  const MaxFieldLength: nat := 1024

  function Min(a: int, b: int): int { if a <= b then a else b }

  /** One field of an embed: `add_field(name=..., value=..., inline=...)`. */
  datatype Field = Field(name: string, value: string, inline: bool)

  /** `[value[i:i+MAX_FIELD_LENGTH] for i in range(0, len(value), MAX_FIELD_LENGTH)]`. */
  function Chunks(value: string): (chunks: seq<string>)
    decreases |value|
  {
    if value == [] then []
    else if |value| <= MaxFieldLength then [value]
    else [value[..MaxFieldLength]] + Chunks(value[MaxFieldLength..])
  }

  /** The slices are exactly the comprehension's: there are `ceil(len/1024)`
      of them and slice `i` is `value[i*1024 : (i+1)*1024]`. */
  lemma {:induction false} ChunksAt(value: string)
    ensures |Chunks(value)| == (|value| + MaxFieldLength - 1) / MaxFieldLength
    ensures forall i :: 0 <= i < |Chunks(value)| ==>
      i * MaxFieldLength < |value| &&
      Chunks(value)[i] == value[i * MaxFieldLength .. Min((i + 1) * MaxFieldLength, |value|)]
  {
    if |value| > MaxFieldLength {
      var rest := value[MaxFieldLength..];
      ChunksAt(rest);
      forall i | 1 <= i < |Chunks(value)|
        ensures i * MaxFieldLength < |value|
        ensures Chunks(value)[i] == value[i * MaxFieldLength .. Min((i + 1) * MaxFieldLength, |value|)]
      {
        assert Chunks(value)[i] == Chunks(rest)[i - 1];
        assert (i - 1) * MaxFieldLength + MaxFieldLength == i * MaxFieldLength;
      }
    }
  }

  /** Concatenating the slices in order gives back the value. */
  lemma {:induction false} ChunksLossless(value: string)
    ensures Flatten(Chunks(value)) == value
  {
    if |value| > MaxFieldLength {
      ChunksLossless(value[MaxFieldLength..]);
      assert value == value[..MaxFieldLength] + value[MaxFieldLength..];
    }
  }

  /** Every slice is non-empty and within the limit; all but the last are full. */
  lemma ChunksBounded(value: string)
    ensures forall i :: 0 <= i < |Chunks(value)| ==> 0 < |Chunks(value)[i]| <= MaxFieldLength
    ensures forall i :: 0 <= i < |Chunks(value)| - 1 ==> |Chunks(value)[i]| == MaxFieldLength
  {
    ChunksAt(value);
    forall i | 0 <= i < |Chunks(value)| - 1 ensures |Chunks(value)[i]| == MaxFieldLength {
      assert (i + 1) * MaxFieldLength <= (|Chunks(value)| - 1) * MaxFieldLength;
      assert (|Chunks(value)| - 1) * MaxFieldLength < |value|;
    }
  }

  /** The fields made from a sequence of slices: the first keeps `name`, every
      later one is `name + " (cont.)"`, all with the caller's inline flag. */
  function Labelled(name: string, chunks: seq<string>, inline: bool): (fields: seq<Field>)
  {
    seq(|chunks|, i requires 0 <= i < |chunks| =>
      Field(if i == 0 then name else name + " (cont.)", chunks[i], inline))
  }

  /** The fields `safe_add_field(embed, name=name, value=value, inline=inline)` appends. */
  function ChunkFields(name: string, value: string, inline: bool): (fields: seq<Field>)
  {
    if |value| <= MaxFieldLength then [Field(name, value, inline)]
    else Labelled(name, Chunks(value), inline)
  }

  /** The values of a field list, in order. */
  function Values(fields: seq<Field>): (values: seq<string>)
    ensures |values| == |fields|
  {
    seq(|fields|, i requires 0 <= i < |fields| => fields[i].value)
  }

  lemma ValuesAppend(a: seq<Field>, b: seq<Field>)
    ensures Values(a + b) == Values(a) + Values(b)
  {
  }

  /** A value within the limit, the empty string included, becomes one field
      with the name, value and inline flag unchanged. */
  lemma ChunkFieldsShort(name: string, value: string, inline: bool)
    requires |value| <= MaxFieldLength
    ensures ChunkFields(name, value, inline) == [Field(name, value, inline)]
  {
  }

  /** The chunk count: one field for a value within the limit (even the empty
      one), otherwise `ceil(len(value) / 1024)`. */
  lemma ChunkFieldsCount(name: string, value: string, inline: bool)
    ensures |ChunkFields(name, value, inline)| ==
      if value == [] then 1 else (|value| + MaxFieldLength - 1) / MaxFieldLength
  {
    ChunksAt(value);
  }

  /** The fields of one call reproduce the value in order, each within the
      limit, every one but the last full. */
  lemma ChunkFieldsLossless(name: string, value: string, inline: bool)
    ensures Flatten(Values(ChunkFields(name, value, inline))) == value
    ensures forall k :: 0 <= k < |ChunkFields(name, value, inline)| ==>
      |ChunkFields(name, value, inline)[k].value| <= MaxFieldLength
    ensures forall k :: 0 <= k < |ChunkFields(name, value, inline)| - 1 ==>
      |ChunkFields(name, value, inline)[k].value| == MaxFieldLength
  {
    var fields := ChunkFields(name, value, inline);
    if |value| <= MaxFieldLength {
      assert Values(fields) == [value];
    } else {
      ChunksLossless(value);
      ChunksBounded(value);
      assert Values(fields) == Chunks(value);
    }
  }

  /** Naming: the first field keeps `name`, every later field is
      `name + " (cont.)"`, and every field has the caller's inline flag. */
  lemma ChunkFieldsNaming(name: string, value: string, inline: bool)
    ensures ChunkFields(name, value, inline) != []
    ensures ChunkFields(name, value, inline)[0].name == name
    ensures forall k :: 1 <= k < |ChunkFields(name, value, inline)| ==>
      ChunkFields(name, value, inline)[k].name == name + " (cont.)"
    ensures forall k :: 0 <= k < |ChunkFields(name, value, inline)| ==>
      ChunkFields(name, value, inline)[k].inline == inline
  {
    ChunksAt(value);
  }
}

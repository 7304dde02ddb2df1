/**
 * Parcelling of the configuration record: `DialogParams.writeToParcel` and
 * the `DialogParams(Parcel)` constructor used by `CREATOR.createFromParcel`.
 *
 * A parcel is a sequence of typed values with a read cursor. Writes append;
 * reads take the value under the cursor and advance past it.
 */
module Parcels {
  import opened Wrappers
  import opened JavaTypes
  import opened DialogParams

  /** One value written into a parcel. */
  datatype Value = PInt(i: Int32) | PFloat(f: Float32) | PByte(b: Int8)

  /** Number of values `writeToParcel` writes. */
  const ParcelledLength: nat := 8

  /** The values `writeToParcel` appends for `p`, in order. */
  function Parcelled(p: Params): (vs: seq<Value>)
  {
    [ PInt(p.layoutResId), PInt(p.width), PInt(p.height), PInt(p.gravity),
      PInt(p.roundRadius), PInt(p.animation), PFloat(p.dimAmount),
      PByte(if p.cancelable then 1 else 0) ]
  }

  /** The `int` under the cursor, if there is one. */
  function IntAt(data: seq<Value>, pos: nat): (r: Option<Int32>)
    ensures r.Some? <==> pos < |data| && data[pos].PInt?
    ensures r.Some? ==> data[pos] == PInt(r.value)
  {
    if pos < |data| && data[pos].PInt? then Some(data[pos].i) else None
  }

  /** The `float` under the cursor, if there is one. */
  function FloatAt(data: seq<Value>, pos: nat): (r: Option<Float32>)
    ensures r.Some? <==> pos < |data| && data[pos].PFloat?
    ensures r.Some? ==> data[pos] == PFloat(r.value)
  {
    if pos < |data| && data[pos].PFloat? then Some(data[pos].f) else None
  }

  /** The `byte` under the cursor, if there is one. */
  function ByteAt(data: seq<Value>, pos: nat): (r: Option<Int8>)
    ensures r.Some? <==> pos < |data| && data[pos].PByte?
    ensures r.Some? ==> data[pos] == PByte(r.value)
  {
    if pos < |data| && data[pos].PByte? then Some(data[pos].b) else None
  }

  /** True when the eight values from `pos` have the types `writeToParcel` writes. */
  predicate HoldsParams(data: seq<Value>, pos: nat)
  {
    && pos + ParcelledLength <= |data|
    && data[pos].PInt? && data[pos + 1].PInt? && data[pos + 2].PInt?
    && data[pos + 3].PInt? && data[pos + 4].PInt? && data[pos + 5].PInt?
    && data[pos + 6].PFloat? && data[pos + 7].PByte?
  }

  /**
   * The record the parcel constructor reads from `pos`: six ints, a float and
   * a byte (any non-zero byte reads as `true`); the callbacks are not in the
   * parcel and come back as `null`.
   */
  function Unparcel(data: seq<Value>, pos: nat): (r: Option<Params>)
    ensures r.Some? <==> HoldsParams(data, pos)
    ensures r.Some? ==> r.value.bindViewListener.None? && r.value.saveStateListener.None?
  {
    if HoldsParams(data, pos) then
      Some(Params(data[pos].i, data[pos + 1].i, data[pos + 2].i, data[pos + 3].i,
                  data[pos + 4].i, data[pos + 5].i, data[pos + 6].f, data[pos + 7].b != 0,
                  None, None))
    else
      None
  }

  /**
   * What `writeToParcel` writes: exactly eight values, six ints then a float
   * then a byte, carrying the fields in declaration order, the byte being 1
   * for a cancelable dialog and 0 otherwise.
   */
  lemma ParcelledLayout(p: Params)
    ensures |Parcelled(p)| == ParcelledLength
    ensures Parcelled(p)[..6] == [PInt(p.layoutResId), PInt(p.width), PInt(p.height),
                                  PInt(p.gravity), PInt(p.roundRadius), PInt(p.animation)]
    ensures Parcelled(p)[6] == PFloat(p.dimAmount)
    ensures Parcelled(p)[7].PByte? && (Parcelled(p)[7].b == 1 || Parcelled(p)[7].b == 0)
    ensures Parcelled(p)[7].b == 1 <==> p.cancelable
  {
  }

  /**
   * Round trip: reading back, at the position where it was written, a record
   * written into any parcel yields every scalar field unchanged and both
   * callbacks `null`; whatever surrounds the record does not matter.
   */
  lemma RoundTrip(p: Params, before: seq<Value>, after: seq<Value>)
    ensures Unparcel(before + Parcelled(p) + after, |before|) == Some(WithoutListeners(p))
  {
  }

  /** A parcel being written or read. */
  class Parcel {
    var data: seq<Value>
    var pos: nat

    /** An empty parcel (`Parcel.obtain()`). */
    constructor ()
      ensures data == [] && pos == 0
    {
      data := [];
      pos := 0;
    }

    /** A parcel holding `data`, positioned at its start for reading. */
    constructor FromData(data: seq<Value>)
      ensures this.data == data && pos == 0
    {
      this.data := data;
      pos := 0;
    }

    /** `setDataPosition`. */
    method SetDataPosition(pos: nat)
      modifies this
      ensures data == old(data) && this.pos == pos
    {
      this.pos := pos;
    }

    method WriteInt(v: Int32)
      modifies this
      ensures data == old(data) + [PInt(v)] && pos == old(pos)
    {
      data := data + [PInt(v)];
    }

    method WriteFloat(v: Float32)
      modifies this
      ensures data == old(data) + [PFloat(v)] && pos == old(pos)
    {
      data := data + [PFloat(v)];
    }

    method WriteByte(v: Int8)
      modifies this
      ensures data == old(data) + [PByte(v)] && pos == old(pos)
    {
      data := data + [PByte(v)];
    }

    /** Reads an `int` and advances past it; `None` when there is none under the cursor. */
    method ReadInt() returns (r: Option<Int32>)
      modifies this
      ensures data == old(data) && r == IntAt(data, old(pos))
      ensures pos == if r.Some? then old(pos) + 1 else old(pos)
    {
      r := IntAt(data, pos);
      if r.Some? {
        pos := pos + 1;
      }
    }

    /** Reads a `float` and advances past it. */
    method ReadFloat() returns (r: Option<Float32>)
      modifies this
      ensures data == old(data) && r == FloatAt(data, old(pos))
      ensures pos == if r.Some? then old(pos) + 1 else old(pos)
    {
      r := FloatAt(data, pos);
      if r.Some? {
        pos := pos + 1;
      }
    }

    /** Reads a `byte` and advances past it. */
    method ReadByte() returns (r: Option<Int8>)
      modifies this
      ensures data == old(data) && r == ByteAt(data, old(pos))
      ensures pos == if r.Some? then old(pos) + 1 else old(pos)
    {
      r := ByteAt(data, pos);
      if r.Some? {
        pos := pos + 1;
      }
    }
  }

  /** `writeToParcel`: appends the record's eight scalar values to `dest`. */
  method WriteToParcel(p: Params, dest: Parcel)
    modifies dest
    ensures dest.data == old(dest.data) + Parcelled(p) && dest.pos == old(dest.pos)
  {
    dest.WriteInt(p.layoutResId);
    dest.WriteInt(p.width);
    dest.WriteInt(p.height);
    dest.WriteInt(p.gravity);
    dest.WriteInt(p.roundRadius);
    dest.WriteInt(p.animation);
    dest.WriteFloat(p.dimAmount);
    dest.WriteByte(if p.cancelable then 1 else 0);
  }

  /**
   * The `DialogParams(Parcel)` constructor: reads the eight values in the
   * order they were written, advancing the cursor past each one.
   */
  method CreateFromParcel(src: Parcel) returns (r: Option<Params>)
    modifies src
    ensures src.data == old(src.data) && r == Unparcel(src.data, old(src.pos))
    ensures r.Some? ==> src.pos == old(src.pos) + ParcelledLength
    ensures r.None? ==> old(src.pos) <= src.pos <= old(src.pos) + ParcelledLength
  {
    var start := src.pos;
    var layoutResId := src.ReadInt();
    if layoutResId.None? { return None; }
    var width := src.ReadInt();
    if width.None? { return None; }
    var height := src.ReadInt();
    if height.None? { return None; }
    var gravity := src.ReadInt();
    if gravity.None? { return None; }
    var roundRadius := src.ReadInt();
    if roundRadius.None? { return None; }
    var animation := src.ReadInt();
    if animation.None? { return None; }
    var dimAmount := src.ReadFloat();
    if dimAmount.None? { return None; }
    var cancelable := src.ReadByte();
    if cancelable.None? { return None; }
    assert src.pos == start + ParcelledLength;
    r := Some(Params(layoutResId.value, width.value, height.value, gravity.value,
                     roundRadius.value, animation.value, dimAmount.value,
                     cancelable.value != 0, None, None));
  }

  /**
   * How the platform carries the record across a save: write it into a new
   * parcel, rewind, and read it back through the parcel constructor. The
   * result is the record without its callbacks.
   */
  method MarshalAndUnmarshal(p: Params) returns (r: Option<Params>)
    ensures r == Some(WithoutListeners(p))
  {
    var parcel := new Parcel();
    WriteToParcel(p, parcel);
    parcel.SetDataPosition(0);
    r := CreateFromParcel(parcel);
    RoundTrip(p, [], []);
    assert parcel.data == [] + Parcelled(p) + [];
  }
}

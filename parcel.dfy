/**
 * An abstract `android.os.Parcel`: a sequence of tagged values that writes
 * append to and reads consume from a cursor. Binary layout, alignment and
 * class loaders are not modelled; a read demands an entry of its own kind at
 * the cursor.
 */
module Parcels {
  import opened Wrappers
  import opened Platform

  /** One value written into a parcel, tagged by the call that wrote it. */
  datatype Entry =
    | LongEntry(longValue: Long)                    // writeLong / readLong
    | StringEntry(stringValue: Option<string>)      // writeString / readString
    | ByteArrayEntry(bytes: Option<seq<Byte>>)      // writeByteArray / createByteArray
    | ParcelableEntry(bitmap: Option<Bitmap>)       // writeParcelable / readParcelable

  class Parcel {
    /** Everything written so far, in order. */
    var entries: seq<Entry>
    /** The read cursor (`dataPosition`). */
    var position: nat

    constructor ()
      ensures entries == [] && position == 0
    {
      entries, position := [], 0;
    }

    method WriteLong(v: Long)
      modifies this
      ensures entries == old(entries) + [LongEntry(v)] && position == old(position)
    {
      entries := entries + [LongEntry(v)];
    }

    method WriteString(s: Option<string>)
      modifies this
      ensures entries == old(entries) + [StringEntry(s)] && position == old(position)
    {
      entries := entries + [StringEntry(s)];
    }

    method WriteByteArray(b: Option<seq<Byte>>)
      modifies this
      ensures entries == old(entries) + [ByteArrayEntry(b)] && position == old(position)
    {
      entries := entries + [ByteArrayEntry(b)];
    }

    /** The `flags` argument of the platform call does not change what is written. */
    method WriteParcelable(p: Option<Bitmap>, flags: int)
      modifies this
      ensures entries == old(entries) + [ParcelableEntry(p)] && position == old(position)
    {
      entries := entries + [ParcelableEntry(p)];
    }

    method SetDataPosition(p: nat)
      requires p <= |entries|
      modifies this
      ensures entries == old(entries) && position == p
    {
      position := p;
    }

    method ReadLong() returns (v: Long)
      requires position < |entries| && entries[position].LongEntry?
      modifies this
      ensures entries == old(entries) && position == old(position) + 1
      ensures v == entries[old(position)].longValue
    {
      v := entries[position].longValue;
      position := position + 1;
    }

    method ReadString() returns (s: Option<string>)
      requires position < |entries| && entries[position].StringEntry?
      modifies this
      ensures entries == old(entries) && position == old(position) + 1
      ensures s == entries[old(position)].stringValue
    {
      s := entries[position].stringValue;
      position := position + 1;
    }

    method CreateByteArray() returns (b: Option<seq<Byte>>)
      requires position < |entries| && entries[position].ByteArrayEntry?
      modifies this
      ensures entries == old(entries) && position == old(position) + 1
      ensures b == entries[old(position)].bytes
    {
      b := entries[position].bytes;
      position := position + 1;
    }

    method ReadParcelable() returns (p: Option<Bitmap>)
      requires position < |entries| && entries[position].ParcelableEntry?
      modifies this
      ensures entries == old(entries) && position == old(position) + 1
      ensures p == entries[old(position)].bitmap
    {
      p := entries[position].bitmap;
      position := position + 1;
    }
  }
}

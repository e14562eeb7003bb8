/**
 * Byte views handed out by the wrapper: `Bytes` owns an engine buffer and
 * frees it when dropped, `Slice` borrows memory the engine keeps alive and
 * is never freed by the wrapper. Both render under `Debug` as a quoted
 * string in which every byte is written with ASCII `escape_default`.
 */
module ByteViews {
  import opened Common
  import opened Native
  import Lib

  // ----- ASCII escape_default ------------------------------------------------

  function HexDigit(d: int): (c: char)
    requires 0 <= d < 16
    ensures IsHex(c) && HexValue(c) == d
  {
    if d < 10 then ('0' as int + d) as char else ('a' as int + d - 10) as char
  }

  /** Lower-case hexadecimal digits, as `escape_default` writes them. */
  predicate IsHex(c: char)
  {
    ('0' <= c <= '9') || ('a' <= c <= 'f')
  }

  function HexValue(c: char): (d: int)
    requires IsHex(c)
    ensures 0 <= d < 16
  {
    if '0' <= c <= '9' then c as int - '0' as int else c as int - 'a' as int + 10
  }

  predicate Printable(c: char)
  {
    ' ' <= c <= '~'
  }

  /**
   * ASCII `escape_default` of one byte: tab, carriage return, line feed,
   * backslash and both quotes get a backslash escape, other printable bytes
   * stand for themselves, and everything else becomes `\xNN`.
   */
  function Escape(b: byte): (r: string)
    ensures 1 <= |r| <= 4
    ensures forall i | 0 <= i < |r| :: Printable(r[i])
    ensures |r| == 1 <==> (0x20 <= b < 0x7f && b != 0x5c && b != 0x27 && b != 0x22)
  {
    if b == 0x09 then "\\t"
    else if b == 0x0d then "\\r"
    else if b == 0x0a then "\\n"
    else if b == 0x5c then "\\\\"
    else if b == 0x27 then "\\'"
    else if b == 0x22 then "\\\""
    else if 0x20 <= b < 0x7f then [b as int as char]
    else "\\x" + [HexDigit(b as int / 16), HexDigit(b as int % 16)]
  }

  /** The escaped bytes of `s`, in order, without the surrounding quotes. */
  function EscapeAll(s: seq<byte>): string
    decreases |s|
  {
    if s == [] then "" else Escape(s[0]) + EscapeAll(s[1..])
  }

  /** What `format_slice` writes: a double quote, the escaped bytes, a double quote. */
  function Quoted(s: seq<byte>): (r: string)
    ensures |r| >= 2 && r[0] == '"' && r[|r| - 1] == '"'
  {
    "\"" + EscapeAll(s) + "\""
  }

  /** Reads back one rendering: the inverse of `EscapeAll`. */
  function Unescape(t: string): Option<seq<byte>>
    decreases |t|
  {
    if t == [] then Some([])
    else if t[0] == '\\' then
      if |t| >= 2 && t[1] in "trn\\'\"" then
        var b: byte := if t[1] == 't' then 0x09 else if t[1] == 'r' then 0x0d else if t[1] == 'n' then 0x0a
                       else if t[1] == '\\' then 0x5c else if t[1] == '\'' then 0x27 else 0x22;
        Prepend(b, Unescape(t[2..]))
      else if |t| >= 4 && t[1] == 'x' && IsHex(t[2]) && IsHex(t[3]) then
        Prepend((HexValue(t[2]) * 16 + HexValue(t[3])) as byte, Unescape(t[4..]))
      else None
    else if Printable(t[0]) && t[0] != '\'' && t[0] != '"' then
      Prepend(t[0] as int as byte, Unescape(t[1..]))
    else None
  }

  function Prepend(b: byte, rest: Option<seq<byte>>): Option<seq<byte>>
  {
    if rest.Some? then Some([b] + rest.value) else None
  }

  lemma EscapeThenRest(b: byte, rest: string)
    ensures Unescape(Escape(b) + rest) == Prepend(b, Unescape(rest))
  {
    var e := Escape(b);
    if |e| == 2 {
      assert (e + rest)[2..] == rest;
    } else if |e| == 4 {
      assert (e + rest)[4..] == rest;
      assert (e + rest)[2] == HexDigit(b as int / 16) && (e + rest)[3] == HexDigit(b as int % 16);
    } else {
      assert (e + rest)[1..] == rest;
    }
  }

  lemma {:induction false} EscapeAllAppend(s: seq<byte>, b: byte)
    ensures EscapeAll(s + [b]) == EscapeAll(s) + Escape(b)
    decreases |s|
  {
    if s == [] {
      assert [b][1..] == [];
    } else {
      assert (s + [b])[1..] == s[1..] + [b];
      EscapeAllAppend(s[1..], b);
    }
  }

  /** Rendering loses nothing: the escaped form reads back to exactly the bytes. */
  lemma {:induction false} UnescapeEscapeAll(s: seq<byte>)
    ensures Unescape(EscapeAll(s)) == Some(s)
    decreases |s|
  {
    if s != [] {
      EscapeThenRest(s[0], EscapeAll(s[1..]));
      UnescapeEscapeAll(s[1..]);
      assert [s[0]] + s[1..] == s;
    }
  }

  /** Between the quotes every character is printable ASCII, and no bare quote ends the string early. */
  lemma {:induction false} EscapeAllPrintable(s: seq<byte>)
    ensures forall i | 0 <= i < |EscapeAll(s)| :: Printable(EscapeAll(s)[i])
    ensures forall i | 0 <= i < |EscapeAll(s)| && EscapeAll(s)[i] == '"' :: i > 0 && EscapeAll(s)[i - 1] == '\\'
    decreases |s|
  {
    if s != [] {
      EscapeAllPrintable(s[1..]);
      var e, t := Escape(s[0]), EscapeAll(s[1..]);
      assert EscapeAll(s) == e + t;
      forall i | 0 <= i < |e + t| && (e + t)[i] == '"'
        ensures i > 0 && (e + t)[i - 1] == '\\'
      {
        if i >= |e| {
          assert t[i - |e|] == '"';
          if i - |e| == 0 {
            assert false;
          }
        }
      }
    }
  }

  /** The Debug text of a byte string determines the bytes: the quoted rendering reads back. */
  lemma QuotedReadsBack(s: seq<byte>)
    ensures var q := Quoted(s); Unescape(q[1..|q| - 1]) == Some(s)
  {
    var q := Quoted(s);
    assert q[1..|q| - 1] == EscapeAll(s);
    UnescapeEscapeAll(s);
  }

  /** `format_slice`: writes the opening quote, then byte by byte its escape, then the closing quote. */
  method FormatSlice(s: seq<byte>) returns (out: string)
    ensures out == Quoted(s)
  {
    out := "\"";
    var i := 0;
    while i < |s|
      invariant 0 <= i <= |s|
      invariant out == "\"" + EscapeAll(s[..i])
    {
      EscapeAllAppend(s[..i], s[i]);
      assert s[..i + 1] == s[..i] + [s[i]];
      out := out + Escape(s[i]);
      i := i + 1;
    }
    assert s[..i] == s;
    out := out + "\"";
  }

  // ----- owned and borrowed views ------------------------------------------------

  /** Owned bytes: an engine buffer of at least `len` bytes, freed through the allocator on drop. */
  class Bytes {
    const engine: Engine
    const ptr: Handle
    const len: nat

    ghost predicate Live()
      reads engine
    {
      engine.Inv() && ptr in engine.live && engine.live[ptr].Buf? && len <= |engine.live[ptr].bytes|
    }

    /** `Bytes::new`: a null buffer address is refused. */
    constructor (engine: Engine, ptr: Ptr, len: nat)
      requires ptr.At?
      ensures this.engine == engine && this.ptr == ptr.h && this.len == len
    {
      this.engine, this.ptr, this.len := engine, ptr.h, len;
    }

    /** `as_ref`: exactly `len` bytes, read from the start of the buffer. */
    function AsRef(): (r: seq<byte>)
      reads engine
      requires Live()
      ensures |r| == len && r <= engine.live[ptr].bytes
    {
      engine.live[ptr].bytes[..len]
    }

    /** `Debug`: formats the viewed bytes exactly as a `Slice` with these contents is formatted. */
    method Debug() returns (text: string)
      requires Live()
      ensures text == Quoted(AsRef())
    {
      text := FormatSlice(AsRef());
    }

    /** `Drop`: the buffer goes back to the engine allocator, once. */
    method Drop()
      requires Live()
      modifies engine
      ensures engine.Inv() && engine.Gone(ptr)
    {
      engine.Unreferenced(ptr);
      Lib.Free(engine, ptr);
    }
  }

  /**
   * The value mapping every point read shares: a null value pointer means the
   * key was absent, a non-null one becomes owned `Bytes` of length `len`.
   */
  method Own(engine: Engine, value: Ptr, len: nat) returns (r: Option<Bytes>)
    ensures r.None? <==> value.Null?
    ensures r.Some? ==> fresh(r.value) && r.value.engine == engine && r.value.ptr == value.h && r.value.len == len
  {
    if value.At? {
      var b := new Bytes(engine, value, len);
      r := Some(b);
    } else {
      r := None;
    }
  }

  /**
   * A borrowed view of `len` bytes that the engine keeps alive, such as an
   * iterator's current key. It has no drop, so the wrapper never frees it.
   */
  datatype Slice = Slice(bytes: seq<byte>)
  {
    /** `Debug`: formats the viewed bytes exactly as owned `Bytes` with these contents are formatted. */
    method Debug() returns (text: string)
      ensures text == Quoted(bytes)
    {
      text := FormatSlice(bytes);
    }
  }
}

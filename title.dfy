/** The window title handed to the provider: a NUL-terminated UTF-16 buffer
    narrowed into a 256-byte C string. Code units below 0x80 pass through, any
    other unit becomes '?', at most 255 units are kept, and a NULL buffer gives
    the title "Window". */
module Title {
  import opened Glfw

  newtype uint16 = x: int | 0 <= x < 0x1_0000

  /** Room for the text in the 256-byte buffer, the last byte being the NUL. */
  const MAX_TITLE: nat := 255

  const DEFAULT_TITLE: string := "Window"

  /** The caller's buffer can be read up to its terminating NUL or for the
      first MAX_TITLE units, whichever comes first. */
  predicate Readable(units: seq<uint16>) {
    |units| >= MAX_TITLE || 0 in units
  }

  /** The narrow character that stands for one UTF-16 code unit. */
  function Narrow(u: uint16): (c: char) {
    if u < 0x80 then (u as int) as char else '?'
  }

  /** Where the copy starting at `i` stops: at the first NUL, at MAX_TITLE, or
      at the end of the readable units. */
  function ScanEnd(units: seq<uint16>, i: nat): (n: nat)
    requires i <= |units|
    ensures i <= n <= |units|
    ensures i <= MAX_TITLE ==> n <= MAX_TITLE
    ensures forall k :: i <= k < n ==> units[k] != 0
    ensures n >= MAX_TITLE || n == |units| || units[n] == 0
    decreases |units| - i
  {
    if i < MAX_TITLE && i < |units| && units[i] != 0 then ScanEnd(units, i + 1) else i
  }

  /** The title text, as a function of the caller's buffer (None for NULL).
      Its length is min(MAX_TITLE, position of the first NUL); at every position
      it holds the code unit itself when below 0x80 and '?' otherwise. */
  function TitleFrom(title: Option<seq<uint16>>): (name: string)
    requires title.Some? ==> Readable(title.value)
    ensures title.None? ==> name == "Window"
    ensures title.Some? ==> var units := title.value;
      && |name| <= MAX_TITLE && |name| <= |units|
      && (|name| == MAX_TITLE || (|name| < |units| && units[|name|] == 0))
      && (forall k :: 0 <= k < |name| ==> units[k] != 0)
      && (forall k :: 0 <= k < |name| && units[k] < 0x80 ==> name[k] as int == units[k] as int)
      && (forall k :: 0 <= k < |name| && units[k] >= 0x80 ==> name[k] == '?')
  {
    match title
    case None => DEFAULT_TITLE
    case Some(units) =>
      var n := ScanEnd(units, 0);
      seq(n, k requires 0 <= k < n => Narrow(units[k]))
  }

  /** The copy loop into the 256-byte buffer. */
  method ConvertTitle(title: Option<seq<uint16>>) returns (name: string)
    requires title.Some? ==> Readable(title.value)
    ensures name == TitleFrom(title)
  {
    var buffer := new char[MAX_TITLE + 1](_ => '\0');
    if title.None? {
      return DEFAULT_TITLE;
    }
    var units := title.value;
    var i := 0;
    while i < MAX_TITLE && units[i] != 0
      invariant 0 <= i <= MAX_TITLE && i <= |units|
      invariant i < MAX_TITLE ==> i < |units|
      invariant forall k :: 0 <= k < i ==> units[k] != 0 && buffer[k] == Narrow(units[k])
      invariant ScanEnd(units, i) == ScanEnd(units, 0)
    {
      if units[i] < 0x80 {
        buffer[i] := (units[i] as int) as char;
      } else {
        buffer[i] := '?';
      }
      i := i + 1;
    }
    buffer[i] := '\0';
    name := buffer[..i];
  }
}

/** Small shared vocabulary: an optional value and the JavaScript string
    operations that several modules of the game rely on (`trim`, `slice`,
    `toLowerCase` on addresses, and the "first 6 + ... + last 4" wallet
    shortening). */
module Common {

  datatype Option<+T> = None | Some(value: T)

  /** Concatenation is associative. */
  lemma AppendAssoc<T>(a: seq<T>, b: seq<T>, c: seq<T>)
    ensures (a + b) + c == a + (b + c)
  {
  }

  /** The characters JavaScript's `String.prototype.trim` removes: the
      WhiteSpace and LineTerminator code points of ECMAScript. */
  predicate IsJsWhitespace(c: char)
  {
    c == ' ' || c == '\t' || c == '\n' || c == '\r' || c == '\U{B}' || c == '\U{C}'
    || c == '\U{A0}' || c == '\U{FEFF}' || c == '\U{1680}' || ('\U{2000}' <= c <= '\U{200A}')
    || c == '\U{2028}' || c == '\U{2029}' || c == '\U{202F}' || c == '\U{205F}' || c == '\U{3000}'
  }

  function TrimStart(s: string): (r: string)
    ensures |r| <= |s| && r == s[|s| - |r|..]
    ensures r == [] || !IsJsWhitespace(r[0])
    ensures forall i :: 0 <= i < |s| - |r| ==> IsJsWhitespace(s[i])
  {
    if s != [] && IsJsWhitespace(s[0]) then TrimStart(s[1..]) else s
  }

  function TrimEnd(s: string): (r: string)
    ensures |r| <= |s| && r == s[..|r|]
    ensures r == [] || !IsJsWhitespace(r[|r| - 1])
    ensures forall i :: |r| <= i < |s| ==> IsJsWhitespace(s[i])
  {
    if s != [] && IsJsWhitespace(s[|s| - 1]) then TrimEnd(s[..|s| - 1]) else s
  }

  /** `s.trim()`: the part of `s` left after dropping white space from
      both ends. */
  function Trim(s: string): (r: string)
    ensures |r| <= |s|
    ensures r == [] || (!IsJsWhitespace(r[0]) && !IsJsWhitespace(r[|r| - 1]))
  {
    TrimEnd(TrimStart(s))
  }

  /** The trimmed string is the slice of `s` that starts after its leading
      white space. */
  lemma {:induction false} TrimIsSlice(s: string)
    ensures var i := |s| - |TrimStart(s)|; var r := Trim(s);
      i + |r| <= |s| && r == s[i..i + |r|]
  {
    var t := TrimStart(s);
    var r := Trim(s);
    var i := |s| - |t|;
    assert t == s[i..];
    assert r == TrimEnd(t) && r == t[..|r|];
    assert forall j :: 0 <= j < |r| ==> r[j] == s[i + j];
  }

  /** Only white space precedes and follows that slice. */
  lemma {:induction false} TrimDropsOnlyWhitespace(s: string)
    ensures var i := |s| - |TrimStart(s)|; var r := Trim(s);
      && (forall j :: 0 <= j < i ==> IsJsWhitespace(s[j]))
      && (forall j :: i + |r| <= j < |s| ==> IsJsWhitespace(s[j]))
  {
    var t := TrimStart(s);
    var r := Trim(s);
    var i := |s| - |t|;
    assert r == TrimEnd(t) && t == s[i..];
    forall j | i + |r| <= j < |s|
      ensures IsJsWhitespace(s[j])
    {
      assert s[j] == t[j - i];
    }
  }

  /** A string whose ends are not white space trims to itself. */
  lemma TrimKeeps(s: string)
    requires s != [] && !IsJsWhitespace(s[0]) && !IsJsWhitespace(s[|s| - 1])
    ensures Trim(s) == s
  {
    assert TrimStart(s) == s;
    assert TrimEnd(s) == s;
  }

  /** Trimming twice removes nothing more. */
  lemma TrimIdempotent(s: string)
    ensures Trim(Trim(s)) == Trim(s)
  {
    var r := Trim(s);
    assert TrimStart(r) == r;
    assert TrimEnd(r) == r;
  }

  /** JavaScript's `.length` of a string: its UTF-16 code units, two for
      each character beyond U+FFFF. */
  function Utf16Length(s: string): (n: nat)
    ensures |s| <= n <= 2 * |s|
  {
    if s == [] then 0
    else (if s[0] >= '\U{10000}' then 2 else 1) + Utf16Length(s[1..])
  }

  /** Code units add up over concatenation. */
  lemma {:induction false} Utf16LengthAppend(a: string, b: string)
    ensures Utf16Length(a + b) == Utf16Length(a) + Utf16Length(b)
  {
    if a != [] {
      assert (a + b)[1..] == a[1..] + b;
      Utf16LengthAppend(a[1..], b);
    } else {
      assert a + b == b;
    }
  }

  /** Within the Basic Multilingual Plane a character is one code unit;
      beyond it, two. */
  lemma {:induction false} Utf16LengthPlanes(s: string)
    ensures (forall i :: 0 <= i < |s| ==> s[i] < '\U{10000}') ==> Utf16Length(s) == |s|
    ensures (forall i :: 0 <= i < |s| ==> s[i] >= '\U{10000}') ==> Utf16Length(s) == 2 * |s|
  {
    if s != [] {
      Utf16LengthPlanes(s[1..]);
    }
  }

  /** `s.slice(0, n)` for n >= 0, on a string or an array. */
  function SliceHead<T>(s: seq<T>, n: nat): (r: seq<T>)
    ensures |r| == if |s| < n then |s| else n
    ensures r == s[..|r|]
  {
    if |s| < n then s else s[..n]
  }

  /** `s.slice(-n)` for n >= 1: the last n elements, or all of `s` when it
      is shorter. */
  function SliceTail<T>(s: seq<T>, n: nat): (r: seq<T>)
    ensures |r| == if |s| < n then |s| else n
    ensures r == s[|s| - |r|..]
  {
    if |s| < n then s else s[|s| - n..]
  }

  /** The wallet shortening `${a.slice(0, 6)}...${a.slice(-4)}`. */
  function ShortAddress(a: string): (r: string)
    ensures |a| >= 10 ==> |r| == 13 && r[..6] == a[..6] && r[6..9] == "..." && r[9..] == a[|a| - 4..]
  {
    SliceHead(a, 6) + "..." + SliceTail(a, 4)
  }

  /** ASCII case folding, which is all `toLowerCase` does to a hexadecimal
      wallet address. */
  function LowerChar(c: char): char
  {
    if 'A' <= c <= 'Z' then (c as int + 32) as char else c
  }

  function ToLower(s: string): (r: string)
    ensures |r| == |s|
    ensures forall i :: 0 <= i < |s| ==> r[i] == LowerChar(s[i])
  {
    if s == [] then [] else [LowerChar(s[0])] + ToLower(s[1..])
  }

  /** Case-insensitive equality as the hooks compute it:
      `a.toLowerCase() === b.toLowerCase()`. */
  predicate SameAddress(a: string, b: string)
  {
    ToLower(a) == ToLower(b)
  }

  lemma {:induction false} LowerIdempotent(s: string)
    ensures ToLower(ToLower(s)) == ToLower(s)
  {
    if s != [] {
      LowerIdempotent(s[1..]);
    }
  }
}

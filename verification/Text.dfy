/** Strings as the Go service and the SQL CHECKs see them: two notions of trimming, two of length. */
module Text {

  /** The characters strings.TrimSpace drops: Unicode White_Space. */
  predicate GoSpace(c: char) {
    var n := c as int;
    || 9 <= n <= 13 || n == 32 || n == 0x85 || n == 0xA0 || n == 0x1680
    || 0x2000 <= n <= 0x200A || n == 0x2028 || n == 0x2029 || n == 0x202F || n == 0x205F || n == 0x3000
  }

  /** The only character SQL trim() drops by default. */
  predicate SqlSpace(c: char) {
    c == ' '
  }

  function TrimLeft(s: string, space: char -> bool): (t: string)
    ensures |t| <= |s|
    ensures t == [] || !space(t[0])
    ensures s != [] && !space(s[|s| - 1]) ==> t != [] && t[|t| - 1] == s[|s| - 1]
  {
    if s == [] || !space(s[0]) then s else TrimLeft(s[1..], space)
  }

  function TrimRight(s: string, space: char -> bool): (t: string)
    ensures t <= s
    ensures t == [] || !space(t[|t| - 1])
  {
    if s == [] || !space(s[|s| - 1]) then s else TrimRight(s[..|s| - 1], space)
  }

  function Trim(s: string, space: char -> bool): (t: string)
    ensures |t| <= |s|
    ensures t == [] || (!space(t[0]) && !space(t[|t| - 1]))
  {
    TrimRight(TrimLeft(s, space), space)
  }

  function TrimSpace(s: string): string {
    Trim(s, GoSpace)
  }

  // ---------------------------------------------------------------- what trimming means

  predicate Blank(s: string) {
    forall i | 0 <= i < |s| :: GoSpace(s[i])
  }

  /** t is s[i..j], with only white space outside and none at its own ends. */
  predicate IsTrimAt(t: string, s: string, i: nat, j: nat) {
    && i <= j <= |s| && t == s[i..j]
    && (forall k | 0 <= k < i :: GoSpace(s[k])) && (forall k | j <= k < |s| :: GoSpace(s[k]))
    && (i < j ==> !GoSpace(s[i]) && !GoSpace(s[j - 1]))
  }

  /** t is s without the white space around it. */
  ghost predicate IsTrimOf(t: string, s: string) {
    exists i: nat, j: nat :: IsTrimAt(t, s, i, j)
  }

  lemma {:induction false} TrimLeftIsThatSlice(s: string, space: char -> bool, i: nat)
    requires i < |s| && !space(s[i]) && forall k | 0 <= k < i :: space(s[k])
    ensures TrimLeft(s, space) == s[i..]
  {
    if i > 0 {
      TrimLeftIsThatSlice(s[1..], space, i - 1);
    }
  }

  lemma {:induction false} TrimRightIsThatSlice(s: string, space: char -> bool, j: nat)
    requires 0 < j <= |s| && !space(s[j - 1]) && forall k | j <= k < |s| :: space(s[k])
    ensures TrimRight(s, space) == s[..j]
    decreases |s|
  {
    if j < |s| {
      TrimRightIsThatSlice(s[..|s| - 1], space, j);
    }
  }

  lemma TrimIsThatSlice(s: string, space: char -> bool, i: nat, j: nat)
    requires i < j <= |s| && !space(s[i]) && !space(s[j - 1])
    requires (forall k | 0 <= k < i :: space(s[k])) && (forall k | j <= k < |s| :: space(s[k]))
    ensures Trim(s, space) == s[i..j]
  {
    TrimLeftIsThatSlice(s, space, i);
    TrimRightIsThatSlice(s[i..], space, j - i);
  }

  lemma {:induction false} TrimOfSpaces(s: string, space: char -> bool)
    requires forall k | 0 <= k < |s| :: space(s[k])
    ensures Trim(s, space) == ""
  {
    if s != [] {
      TrimOfSpaces(s[1..], space);
    }
  }

  lemma {:induction false} FirstInk(s: string) returns (i: nat)
    requires !Blank(s)
    ensures i < |s| && !GoSpace(s[i]) && forall k | 0 <= k < i :: GoSpace(s[k])
  {
    i := 0;
    if GoSpace(s[0]) {
      assert forall k | 0 <= k < |s| - 1 :: s[1..][k] == s[k + 1];
      i := FirstInk(s[1..]);
      assert forall k | 1 <= k < i + 1 :: s[k] == s[1..][k - 1];
      i := i + 1;
    }
  }

  lemma {:induction false} LastInk(s: string) returns (j: nat)
    requires !Blank(s)
    ensures 0 < j <= |s| && !GoSpace(s[j - 1]) && forall k | j <= k < |s| :: GoSpace(s[k])
  {
    j := |s|;
    if GoSpace(s[|s| - 1]) {
      assert forall k | 0 <= k < |s| - 1 :: s[..|s| - 1][k] == s[k];
      j := LastInk(s[..|s| - 1]);
    }
  }

  /** TrimSpace gives the text without the white space around it, and nothing exactly when there is nothing else. */
  lemma TrimSpaceIsTheTrim(s: string)
    ensures IsTrimOf(TrimSpace(s), s)
    ensures TrimSpace(s) == "" <==> Blank(s)
  {
    if Blank(s) {
      TrimOfSpaces(s, GoSpace);
      assert IsTrimAt("", s, |s|, |s|);
    } else {
      var i := FirstInk(s);
      var j := LastInk(s);
      TrimIsThatSlice(s, GoSpace, i, j);
      assert IsTrimAt(s[i..j], s, i, j);
    }
  }

  lemma TrimIsUnique(s: string, a: string, b: string)
    requires IsTrimOf(a, s) && IsTrimOf(b, s)
    ensures a == b
  {
    var i: nat, j: nat :| IsTrimAt(a, s, i, j);
    var k: nat, l: nat :| IsTrimAt(b, s, k, l);
    if i < j {
      assert k <= i && j <= l;
    }
    if k < l {
      assert i <= k && l <= j;
    }
  }

  /** The code points of Unicode's White_Space property. */
  const WHITE_SPACE := {
    0x9, 0xA, 0xB, 0xC, 0xD, 0x20, 0x85, 0xA0, 0x1680, 0x2000, 0x2001, 0x2002, 0x2003, 0x2004, 0x2005, 0x2006, 0x2007,
    0x2008, 0x2009, 0x200A, 0x2028, 0x2029, 0x202F, 0x205F, 0x3000}

  lemma GoSpaceIsUnicodeWhiteSpace(c: char)
    ensures GoSpace(c) <==> c as int in WHITE_SPACE
  {
  }

  // ---------------------------------------------------------------- length in bytes

  /** Go's len: the number of UTF-8 bytes. */
  function ByteLength(s: string): (n: nat)
    ensures |s| <= n <= 4 * |s|
  {
    if s == [] then 0 else ByteLength(s[..|s| - 1]) + CharBytes(s[|s| - 1])
  }

  function CharBytes(c: char): (n: nat)
    ensures 1 <= n <= 4
  {
    var v := c as int;
    if v < 0x80 then 1 else if v < 0x800 then 2 else if v < 0x10000 then 3 else 4
  }

  /** The UTF-8 encoding of one character (section 3 of RFC 3629). */
  function EncodeChar(c: char): seq<int> {
    var v := c as int;
    if v < 0x80 then [v]
    else if v < 0x800 then [0xC0 + v / 0x40, 0x80 + v % 0x40]
    else if v < 0x10000 then [0xE0 + v / 0x1000, 0x80 + v / 0x40 % 0x40, 0x80 + v % 0x40]
    else [0xF0 + v / 0x40000, 0x80 + v / 0x1000 % 0x40, 0x80 + v / 0x40 % 0x40, 0x80 + v % 0x40]
  }

  /** The code point of a well-formed sequence, read from its first byte on. */
  function DecodeChar(b: seq<int>): int
    requires |b| == 1 || (|b| == 2 && b[0] < 0xE0) || (|b| == 3 && b[0] < 0xF0) || |b| == 4
  {
    if |b| == 1 then b[0]
    else if |b| == 2 then (b[0] - 0xC0) * 0x40 + b[1] - 0x80
    else if |b| == 3 then (b[0] - 0xE0) * 0x1000 + (b[1] - 0x80) * 0x40 + b[2] - 0x80
    else (b[0] - 0xF0) * 0x40000 + (b[1] - 0x80) * 0x1000 + (b[2] - 0x80) * 0x40 + b[3] - 0x80
  }

  function Encode(s: string): seq<int> {
    if s == [] then [] else Encode(s[..|s| - 1]) + EncodeChar(s[|s| - 1])
  }

  lemma Digits(v: nat)
    ensures v == v / 0x40 * 0x40 + v % 0x40
    ensures v / 0x1000 == v / 0x40 / 0x40 && v / 0x40000 == v / 0x1000 / 0x40
  {
  }

  /** Every character reads back from its bytes, and they are as many as counted. */
  lemma CharRoundTrip(c: char)
    ensures var b := EncodeChar(c);
            && |b| == CharBytes(c)
            && (|b| == 1 || (|b| == 2 && b[0] < 0xE0) || (|b| == 3 && b[0] < 0xF0) || |b| == 4)
            && DecodeChar(b) == c as int
            && forall i | 0 <= i < |b| :: 0 <= b[i] < 0x100
  {
    var v := c as int;
    Digits(v);
    Digits(v / 0x40);
    Digits(v / 0x1000);
  }

  lemma {:induction false} ByteLengthCountsBytes(s: string)
    ensures ByteLength(s) == |Encode(s)|
  {
    if s != [] {
      ByteLengthCountsBytes(s[..|s| - 1]);
      CharRoundTrip(s[|s| - 1]);
    }
  }

  /** CHECK (char_length(trim(name)) BETWEEN 1 AND 100). */
  predicate SqlNameCheck(name: string) {
    1 <= |Trim(name, SqlSpace)| <= 100
  }

  /** The column CHECK, said of the name itself: blanks on either side do not count, and 1 to 100 characters do. */
  lemma SqlNameCheckMeans(name: string, i: nat, j: nat)
    requires i <= j <= |name| && (i < j ==> name[i] != ' ' && name[j - 1] != ' ')
    requires (forall k | 0 <= k < i :: name[k] == ' ') && (forall k | j <= k < |name| :: name[k] == ' ')
    ensures SqlNameCheck(name) <==> 1 <= j - i <= 100
  {
    if i < j {
      TrimIsThatSlice(name, SqlSpace, i, j);
    } else {
      TrimOfSpaces(name, SqlSpace);
    }
  }

  /** The create handlers: validator bounds the raw text in characters, then the trimmed text must not be blank. */
  predicate CreateNameOk(raw: string) {
    1 <= |raw| <= 100 && TrimSpace(raw) != ""
  }

  /** The PATCH handlers: the trimmed text is bounded in bytes. */
  predicate PatchNameOk(raw: string) {
    1 <= ByteLength(TrimSpace(raw)) <= 100
  }

  function Repeat(c: char, n: nat): (s: string)
    ensures |s| == n && forall i :: 0 <= i < n ==> s[i] == c
  {
    if n == 0 then [] else Repeat(c, n - 1) + [c]
  }

  /** A two-byte letter, e with an acute accent. */
  const E_ACUTE: char := 0xE9 as char

  lemma {:induction false} AccentedBytes(n: nat)
    ensures ByteLength(Repeat(E_ACUTE, n)) == 2 * n
  {
    if n > 0 {
      AccentedBytes(n - 1);
      var s := Repeat(E_ACUTE, n);
      assert s[..n - 1] == Repeat(E_ACUTE, n - 1) && s[n - 1] == E_ACUTE && CharBytes(E_ACUTE) == 2;
      assert ByteLength(s) == ByteLength(s[..n - 1]) + CharBytes(s[n - 1]);
    }
  }

  lemma TrimIsIdentityOnTrimmed(t: string)
    requires t != [] && !SqlSpace(t[0]) && !SqlSpace(t[|t| - 1])
    ensures Trim(t, SqlSpace) == t
  {
  }

  /** Both application checks imply the column CHECK on the value that is written. */
  lemma AppNameImpliesSqlCheck(raw: string)
    requires CreateNameOk(raw) || PatchNameOk(raw)
    ensures SqlNameCheck(TrimSpace(raw))
  {
    TrimIsIdentityOnTrimmed(TrimSpace(raw));
  }

  /** The two name checks in terms of the text itself. */
  lemma NameChecksMean(raw: string, t: string)
    requires IsTrimOf(t, raw)
    ensures TrimSpace(raw) == t
    ensures CreateNameOk(raw) <==> 1 <= |raw| <= 100 && !Blank(raw)
    ensures PatchNameOk(raw) <==> !Blank(raw) && |Encode(t)| <= 100
  {
    TrimSpaceIsTheTrim(raw);
    TrimIsUnique(raw, TrimSpace(raw), t);
    ByteLengthCountsBytes(t);
  }

  /** A name the create handlers store can be sent back in a PATCH exactly when it also fits in 100 bytes. */
  lemma CreatedNameCanBePatched(raw: string)
    requires CreateNameOk(raw)
    ensures PatchNameOk(TrimSpace(raw)) <==> ByteLength(TrimSpace(raw)) <= 100
  {
    var t := TrimSpace(raw);
    assert TrimLeft(t, GoSpace) == t && TrimRight(t, GoSpace) == t;
  }

  /** Sixty accented letters are such a name: accepted by create, stored as they are, refused by PATCH. */
  lemma SomeCreatedNamesCannotBePatched()
    ensures var name := Repeat(E_ACUTE, 60);
            CreateNameOk(name) && TrimSpace(name) == name && !PatchNameOk(name)
  {
    var name := Repeat(E_ACUTE, 60);
    AccentedBytes(60);
    assert !GoSpace(name[0]) && !GoSpace(name[59]);
    assert TrimLeft(name, GoSpace) == name && TrimRight(name, GoSpace) == name;
  }
}

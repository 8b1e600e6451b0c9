/** Strings as the runtime measures them: UTF-8 byte lengths, blankness, principals. */
module Text {

  function Utf8Width(c: char): (n: nat)
    ensures 1 <= n <= 4
  {
    if c < '\U{80}' then 1 else if c < '\U{800}' then 2 else if c < '\U{10000}' then 3 else 4
  }

  /** `str::len`. */
  function Bytes(s: string): nat {
    if s == "" then 0 else Utf8Width(s[0]) + Bytes(s[1..])
  }

  predicate Whitespace(c: char) {
    || '\U{9}' <= c <= '\U{d}' || c == ' ' || c == '\U{85}' || c == '\U{a0}' || c == '\U{1680}'
    || '\U{2000}' <= c <= '\U{200a}' || c == '\U{2028}' || c == '\U{2029}' || c == '\U{202f}'
    || c == '\U{205f}' || c == '\U{3000}'
  }

  /** `trim().is_empty()`. */
  predicate Blank(s: string) {
    forall i :: 0 <= i < |s| ==> Whitespace(s[i])
  }

  predicate PrincipalCharacter(c: char) {
    'a' <= c <= 'z' || 'A' <= c <= 'Z' || '0' <= c <= '9' || c in {'.', ':', '_', '-', '/'}
  }

  predicate ValidPrincipal(s: string) {
    s != "" && Bytes(s) <= 128 && forall i :: 0 <= i < |s| ==> PrincipalCharacter(s[i])
  }

  /** `char::is_control`. */
  predicate Control(c: char) { c <= '\U{1f}' || '\U{7f}' <= c <= '\U{9f}' }

  /** `str::split` on one character: one more piece than separators. */
  function Split(s: string, separator: char): (r: seq<string>)
    ensures r != []
  {
    if s == "" then [""] else
    var rest := Split(s[1..], separator);
    if s[0] == separator then [""] + rest else [[s[0]] + rest[0]] + rest[1..]
  }

  /** The pieces with the character between them. */
  function Joined(parts: seq<string>, separator: char): string {
    if parts == [] then "" else if |parts| == 1 then parts[0]
    else parts[0] + [separator] + Joined(parts[1..], separator)
  }

  /** Splitting takes apart what joining puts together. */
  lemma {:induction false} SplitJoined(s: string, separator: char)
    ensures Joined(Split(s, separator), separator) == s
    ensures forall i :: 0 <= i < |Split(s, separator)| ==> separator !in Split(s, separator)[i]
  {
    if s != "" {
      SplitJoined(s[1..], separator);
      var rest := Split(s[1..], separator);
      assert s == [s[0]] + s[1..];
      if s[0] == separator {
        assert ([""] + rest)[1..] == rest;
      } else {
        assert ([[s[0]] + rest[0]] + rest[1..])[1..] == rest[1..];
      }
    }
  }

  /** And joining puts together what splitting takes apart. */
  lemma {:induction false} JoinedSplit(parts: seq<string>, separator: char)
    requires parts != [] && forall i :: 0 <= i < |parts| ==> separator !in parts[i]
    ensures Split(Joined(parts, separator), separator) == parts
    decreases |parts|, |parts[0]|
  {
    var s := Joined(parts, separator);
    if parts[0] == "" {
      if |parts| > 1 {
        JoinedSplit(parts[1..], separator);
        assert s[1..] == Joined(parts[1..], separator);
        assert parts == [""] + parts[1..];
      } else {
        assert parts == [""];
      }
    } else {
      var shorter := [parts[0][1..]] + parts[1..];
      assert parts[0][0] in parts[0];
      forall i | 0 <= i < |shorter| ensures separator !in shorter[i] {
        if i == 0 {
          assert forall c :: c in parts[0][1..] ==> c in parts[0];
        } else {
          assert shorter[i] == parts[i];
        }
      }
      JoinedSplit(shorter, separator);
      assert shorter[1..] == parts[1..];
      assert s[1..] == Joined(shorter, separator);
      assert parts[0] == [s[0]] + shorter[0];
      assert parts == [[s[0]] + shorter[0]] + shorter[1..];
    }
  }

  /** The length of a text is the sum of the lengths of its parts. */
  lemma {:induction false} BytesJoin(a: string, b: string)
    ensures Bytes(a + b) == Bytes(a) + Bytes(b)
  {
    if a == "" {
      assert a + b == b;
    } else {
      assert (a + b)[1..] == a[1..] + b;
      BytesJoin(a[1..], b);
    }
  }

  /** UTF-8 widths by code point. */
  lemma WidthIff(c: char)
    ensures Utf8Width(c) == 1 <==> c as int < 0x80
    ensures Utf8Width(c) == 2 <==> 0x80 <= c as int < 0x800
    ensures Utf8Width(c) == 3 <==> 0x800 <= c as int < 0x1_0000
  {
  }

  /** A text has at least as many bytes as characters, and exactly as many iff it is plain ASCII. */
  lemma {:induction false} BytesOfAscii(s: string)
    ensures |s| <= Bytes(s) <= 4 * |s|
    ensures Bytes(s) == |s| <==> forall c :: c in s ==> c < '\U{80}'
  {
    if s != "" {
      BytesOfAscii(s[1..]);
      assert s == [s[0]] + s[1..];
      assert s[0] in s && forall c :: c in s[1..] ==> c in s;
    }
  }

  // ---- The character classes by code point ----

  /** White space is what Unicode lists under that property. */
  lemma WhitespaceIff(c: char)
    ensures Whitespace(c) <==>
              c as int in {9, 10, 11, 12, 13, 32, 133, 160, 5760, 8192, 8193, 8194, 8195, 8196, 8197, 8198, 8199, 8200,
                           8201, 8202, 8232, 8233, 8239, 8287, 12288}
  {
  }

  lemma ControlIff(c: char)
    ensures Control(c) <==> c as int < 32 || 127 <= c as int < 160
  {
  }

  /** A principal is 1 to 128 characters out of letters, digits and five marks. */
  lemma PrincipalIff(s: string)
    ensures ValidPrincipal(s) <==>
              && 1 <= |s| <= 128
              && forall c :: c in s ==> || 'a' <= c <= 'z' || 'A' <= c <= 'Z' || '0' <= c <= '9'
                                        || c == '.' || c == ':' || c == '_' || c == '-' || c == '/'
  {
    BytesOfAscii(s);
    if forall c :: c in s ==> PrincipalCharacter(c) {
      forall i | 0 <= i < |s| ensures PrincipalCharacter(s[i]) { assert s[i] in s; }
    }
    assert (forall c :: c in s ==> PrincipalCharacter(c)) ==> forall c :: c in s ==> c < '\U{80}';
  }
}

/** Strings and searches as the C library sees them. */
module CStrings {

  /** The C string in a buffer. */
  function CString(buf: seq<char>): string {
    if buf == [] || buf[0] == '\0' then [] else [buf[0]] + CString(buf[1..])
  }

  lemma {:induction false} CStringIs(buf: seq<char>, s: string)
    requires |s| < |buf| && s == buf[..|s|] && buf[|s|] == '\0' && '\0' !in s
    ensures CString(buf) == s
  {
    if s != "" {
      assert s[0] in s;
      CStringIs(buf[1..], s[1..]);
      assert s == [s[0]] + s[1..];
    }
  }

  /** The bytes in front of the first NUL, wherever the buffer ends after it. */
  lemma {:induction false} CStringOf(buf: seq<char>)
    ensures CString(buf) == buf[..IndexOf(buf, '\0')]
  {
    if buf != [] && buf[0] != '\0' {
      CStringOf(buf[1..]);
    }
  }

  lemma {:induction false} CStringUpTo(buf: seq<char>, end: nat)
    requires end < |buf| && buf[end] == '\0'
    ensures CString(buf) == CString(buf[..end]) && |CString(buf)| <= end
  {
    if end > 0 && buf[0] != '\0' {
      CStringUpTo(buf[1..], end - 1);
      assert buf[1..][..end - 1] == buf[..end][1..];
    }
  }

  lemma {:induction false} CStringDrop(buf: seq<char>, n: nat)
    requires n <= |CString(buf)|
    ensures n <= |buf| && CString(buf[n..]) == CString(buf)[n..]
  {
    if n > 0 {
      CStringDrop(buf[1..], n - 1);
      assert buf[1..][n - 1..] == buf[n..];
    }
  }

  /** memchr and strchr: the index of the first occurrence, or the length. */
  function IndexOf(s: string, ch: char): (n: nat)
    ensures n <= |s| && ch !in s[..n] && (n < |s| ==> s[n] == ch)
  {
    if s == "" || s[0] == ch then 0 else 1 + IndexOf(s[1..], ch)
  }

  lemma {:induction false} IndexOfAtMost(s: string, ch: char, i: nat)
    requires i < |s| && s[i] == ch
    ensures IndexOf(s, ch) <= i
  {
    if i > 0 && s[0] != ch {
      IndexOfAtMost(s[1..], ch, i - 1);
    }
  }

  lemma {:induction false} NotBeforeIndexOf(s: string, ch: char, i: nat)
    requires i < IndexOf(s, ch)
    ensures i < |s| && s[i] != ch
  {
    if i > 0 {
      NotBeforeIndexOf(s[1..], ch, i - 1);
    }
  }
}

/** Trimming, as Go's strings.TrimSpace and bytes.TrimSpace do it, and decimal numerals. */
module Text {
  predicate IsSpace(c: char) {
    || c == '\t' || c == '\n' || c == '\U{0B}' || c == '\U{0C}' || c == '\r' || c == ' '
    || c == '\U{85}' || c == '\U{A0}' || c == '\U{1680}' || '\U{2000}' <= c <= '\U{200A}'
    || c == '\U{2028}' || c == '\U{2029}' || c == '\U{202F}' || c == '\U{205F}' || c == '\U{3000}'
  }

  function TrimLeft(s: string): (r: string)
    ensures |r| <= |s|
  {
    if s != "" && IsSpace(s[0]) then TrimLeft(s[1..]) else s
  }

  function TrimRight(s: string): (r: string)
    ensures |r| <= |s|
    ensures r <= s
    ensures r != "" ==> !IsSpace(r[|r| - 1])
  {
    if s != "" && IsSpace(s[|s| - 1]) then TrimRight(s[..|s| - 1]) else s
  }

  function Trim(s: string): (r: string)
    ensures |r| <= |s|
  {
    TrimRight(TrimLeft(s))
  }

  predicate Trimmed(s: string) {
    s != "" && !IsSpace(s[0]) && !IsSpace(s[|s| - 1])
  }

  /** Trimming removes the surrounding space and nothing else. */
  lemma {:induction false} TrimPadded(s: string)
    requires Trimmed(s)
    ensures Trim(s) == s && Trim(" " + s) == s
  {
    assert (" " + s)[1..] == s;
  }

  function Digit(d: nat): char
    requires d < 10
  {
    '0' + d as char
  }

  function Itoa(n: nat): (r: string)
    ensures r != ""
    ensures forall c | c in r :: '0' <= c <= '9'
  {
    if n < 10 then [Digit(n)] else Itoa(n / 10) + [Digit(n % 10)]
  }

  lemma {:induction false} ItoaInjective(a: nat, b: nat)
    requires Itoa(a) == Itoa(b)
    ensures a == b
  {
    var s, t := Itoa(a), Itoa(b);
    assert s[|s| - 1] == Digit(a % 10) && t[|t| - 1] == Digit(b % 10);
    if a >= 10 && b >= 10 {
      assert s[..|s| - 1] == Itoa(a / 10) && t[..|t| - 1] == Itoa(b / 10);
      ItoaInjective(a / 10, b / 10);
    }
  }

  lemma {:induction false} ItoaLengths(a: nat, b: nat)
    requires a <= b
    ensures |Itoa(a)| <= |Itoa(b)|
    ensures b < 1000 ==> |Itoa(b)| <= 3
  {
    if a >= 10 {
      ItoaLengths(a / 10, b / 10);
    }
    if b >= 10 {
      assert |Itoa(b)| == |Itoa(b / 10)| + 1;
    }
  }

  // ---------- pieces of text ----------

  function Concat(pieces: seq<string>): string {
    if pieces == [] then "" else Concat(pieces[..|pieces| - 1]) + pieces[|pieces| - 1]
  }

  function Join(parts: seq<string>, sep: string): string {
    if parts == [] then ""
    else if |parts| == 1 then parts[0]
    else parts[0] + sep + Join(parts[1..], sep)
  }

  /** A line without the carriage return it may end in. */
  function DropCR(line: string): string {
    if line != "" && line[|line| - 1] == '\r' then line[..|line| - 1] else line
  }

  lemma {:induction false} ConcatPieces(a: seq<string>, p: string, b: seq<string>)
    ensures Concat(a + [p] + b) == Concat(a) + p + Concat(b)
  {
    if b == [] {
      assert a + [p] + b == a + [p] && (a + [p])[..|a|] == a;
      assert Concat(a) + p + "" == Concat(a) + p;
    } else {
      var n := |b| - 1;
      ConcatPieces(a, p, b[..n]);
      assert (a + [p] + b)[..|a| + |b|] == a + [p] + b[..n];
      assert Concat(a) + p + (Concat(b[..n]) + b[n]) == Concat(a) + p + Concat(b[..n]) + b[n];
    }
  }
}

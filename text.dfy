// The string operations the screens use to turn enum literals into labels:
// `toUpperCase` on one character, `charAt(0).toUpperCase() + slice(1)`,
// `replace('_', ' ')` and `replace(/\b\w/g, l => l.toUpperCase())`.

module Text {
  import opened Seqs

  /** `toUpperCase` on ASCII letters; every other character is left alone. */
  function ToUpper(c: char): (u: char)
    ensures 'a' <= c <= 'z' ==> 'A' <= u <= 'Z' && u as int - c as int == 'A' as int - 'a' as int
    ensures !('a' <= c <= 'z') ==> u == c
  {
    if 'a' <= c <= 'z' then (c as int - 'a' as int + 'A' as int) as char else c
  }

  /** `s.charAt(0).toUpperCase() + s.slice(1)`. */
  function Capitalize(s: string): (r: string)
    ensures |r| == |s|
    ensures s != [] ==> r[0] == ToUpper(s[0]) && r[1..] == s[1..]
  {
    if s == [] then [] else [ToUpper(s[0])] + s[1..]
  }

  /** `s.replace(c, d)` with a one-character string pattern: only the first `c` is replaced. */
  function ReplaceFirst(s: string, c: char, d: char): (r: string)
    ensures |r| == |s|
    ensures c !in s ==> r == s
    ensures c in s ==> r[IndexOf(s, c)] == d &&
                       forall i :: 0 <= i < |s| && i != IndexOf(s, c) ==> r[i] == s[i]
  {
    var k := IndexOf(s, c);
    if k == -1 then s else s[..k] + [d] + s[k + 1..]
  }

  /** A character matched by the regular-expression class `\w`. */
  predicate IsWordChar(c: char) {
    'a' <= c <= 'z' || 'A' <= c <= 'Z' || '0' <= c <= '9' || c == '_'
  }

  /** `s.replace(/\b\w/g, l => l.toUpperCase())`: every word character that starts a word is upper-cased. */
  function UpperWordStarts(s: string): (r: string)
    ensures |r| == |s|
    ensures forall i :: 0 <= i < |s| && IsWordChar(s[i]) && (i == 0 || !IsWordChar(s[i - 1])) ==> r[i] == ToUpper(s[i])
    ensures forall i :: 0 <= i < |s| && !(IsWordChar(s[i]) && (i == 0 || !IsWordChar(s[i - 1]))) ==> r[i] == s[i]
  {
    seq(|s|, i requires 0 <= i < |s| =>
      if IsWordChar(s[i]) && (i == 0 || !IsWordChar(s[i - 1])) then ToUpper(s[i]) else s[i])
  }

  /** On a single word, upper-casing word starts is capitalising. */
  lemma UpperWordStartsOfWord(s: string)
    requires forall i :: 0 <= i < |s| ==> IsWordChar(s[i])
    ensures UpperWordStarts(s) == Capitalize(s)
  {
    var r, t := UpperWordStarts(s), Capitalize(s);
    forall i | 0 <= i < |s| ensures r[i] == t[i] {
      if i > 0 {
        assert t[i] == t[1..][i - 1];
      }
    }
  }

  /** A space separates words: upper-casing word starts works on each side of it independently. */
  lemma UpperWordStartsAroundSpace(a: string, b: string)
    ensures UpperWordStarts(a + " " + b) == UpperWordStarts(a) + " " + UpperWordStarts(b)
  {
    var s := a + " " + b;
    var r, t := UpperWordStarts(s), UpperWordStarts(a) + " " + UpperWordStarts(b);
    forall i | 0 <= i < |s| ensures r[i] == t[i] {
      if i < |a| {
        assert s[i] == a[i] && t[i] == UpperWordStarts(a)[i];
        if i > 0 {
          assert s[i - 1] == a[i - 1];
        }
      } else if i > |a| {
        var j := i - |a| - 1;
        assert s[i] == b[j] && t[i] == UpperWordStarts(b)[j];
        if j > 0 {
          assert s[i - 1] == b[j - 1];
        } else {
          assert s[i - 1] == ' ';
        }
      }
    }
  }
}

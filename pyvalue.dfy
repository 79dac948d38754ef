/** The Python values that flow through the metadata code, with Python's
    truthiness, `str(v).strip()`, `str.lower()` and the substring test `a in b`. */
module PyValue {
  import opened PyDict

  /** None (PyNone), a string, a list, a dict, or any other object, given by its
      truth value and by what `str()` makes of it. */
  datatype Value =
    | PyNone
    | Str(s: string)
    | List(items: seq<Value>)
    | Map(d: Dict<Value>)
    | Other(truthy: bool, text: string)

  /** Python's `bool(v)`. */
  predicate Truthy(v: Value) {
    match v
    case PyNone => false
    case Str(s) => s != ""
    case List(items) => items != []
    case Map(d) => d.keys != []
    case Other(t, _) => t
  }

  /** The characters `str.strip()` removes when called without arguments
      (those for which `str.isspace()` holds). */
  predicate IsSpace(c: char) {
    || c == ' ' || c == '\t' || c == '\n' || c == '\r'
    || c == '\U{B}' || c == '\U{C}'
    || ('\U{1C}' <= c <= '\U{1F}')
    || c == '\U{85}' || c == '\U{A0}' || c == '\U{1680}'
    || ('\U{2000}' <= c <= '\U{200A}')
    || c == '\U{2028}' || c == '\U{2029}' || c == '\U{202F}' || c == '\U{205F}' || c == '\U{3000}'
  }

  function StripLeft(s: string): string {
    if s != [] && IsSpace(s[0]) then StripLeft(s[1..]) else s
  }

  function StripRight(s: string): string {
    if s != [] && IsSpace(s[|s| - 1]) then StripRight(s[..|s| - 1]) else s
  }

  /** `s.strip()`. */
  function Strip(s: string): string {
    StripRight(StripLeft(s))
  }

  ghost predicate AllSpace(s: string) {
    forall i :: 0 <= i < |s| ==> IsSpace(s[i])
  }

  lemma {:induction false} StripLeftAllSpace(s: string)
    ensures AllSpace(StripLeft(s)) <==> AllSpace(s)
    ensures StripLeft(s) != [] ==> !IsSpace(StripLeft(s)[0])
  {
    if s != [] && IsSpace(s[0]) {
      StripLeftAllSpace(s[1..]);
      assert AllSpace(s[1..]) ==> AllSpace(s) by {
        if AllSpace(s[1..]) {
          forall i | 0 <= i < |s| ensures IsSpace(s[i]) {
            if i > 0 { assert s[i] == s[1..][i - 1]; }
          }
        }
      }
      assert AllSpace(s) ==> AllSpace(s[1..]) by {
        if AllSpace(s) {
          forall i | 0 <= i < |s| - 1 ensures IsSpace(s[1..][i]) {
            assert s[1..][i] == s[i + 1];
          }
        }
      }
    }
  }

  lemma {:induction false} StripRightKeepsHead(s: string)
    requires s != [] && !IsSpace(s[0])
    ensures StripRight(s) != []
  {
    if IsSpace(s[|s| - 1]) {
      assert |s| > 1;
      StripRightKeepsHead(s[..|s| - 1]);
    }
  }

  /** `s.strip()` is empty exactly when every character of `s` is whitespace. */
  lemma StripEmptyIffAllSpace(s: string)
    ensures Strip(s) == "" <==> AllSpace(s)
  {
    StripLeftAllSpace(s);
    var t := StripLeft(s);
    if t != [] {
      StripRightKeepsHead(t);
    }
  }

  /** `str(v).strip()` is non-empty. The text of a list or a dict starts with
      a bracket and that of None is "None", so only strings and other objects
      can print blank. */
  predicate PrintsNonBlank(v: Value) {
    match v
    case Str(s) => Strip(s) != ""
    case Other(_, text) => Strip(text) != ""
    case _ => true
  }

  /** ASCII case mapping of one character. */
  function LowerChar(c: char): char {
    if 'A' <= c <= 'Z' then (c as int + 32) as char else c
  }

  /** `s.lower()`, on the ASCII letters. */
  function Lower(s: string): (r: string)
    ensures |r| == |s|
    ensures forall i :: 0 <= i < |s| ==> r[i] == LowerChar(s[i])
  {
    seq(|s|, i requires 0 <= i < |s| => LowerChar(s[i]))
  }

  /** Python's `a in b` on two strings: `a` occurs in `b` at some position. */
  predicate IsSubstring(a: string, b: string) {
    exists i :: 0 <= i <= |b| && a <= b[i..]
  }
}

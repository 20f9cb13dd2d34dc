/** The fragment of JavaScript regular expressions the analysers use as
    boolean tests (`re.test(s)`, `s.match(re)` used as a condition): literal
    text, single-character classes, greedy repetition of a class, sequence,
    alternation and the `^`/`$` anchors without the multiline flag. Since
    only "is there a match" is asked, a pattern denotes the set of end
    positions it can reach from a start position. */
module Regex {
  import opened Text

  datatype CharClass =
    | Space               // \s
    | Word                // [a-zA-Z0-9_] and \w
    | LetterOrUnderscore  // [a-zA-Z_]
    | Lower               // [a-z]
    | Upper               // [A-Z]
    | Alnum               // [a-zA-Z0-9]
    | UpperDigitUnderscore // [A-Z0-9_]
    | Dot                 // .
    | NotChar(c: char)    // [^c]
    | HexLower            // [a-f0-9]
    | WordOrDot           // [\w.]

  predicate InClass(k: CharClass, c: char)
  {
    match k
    case Space => IsSpace(c)
    case Word => IsWordChar(c)
    case LetterOrUnderscore => IsLetter(c) || c == '_'
    case Lower => IsLower(c)
    case Upper => IsUpper(c)
    case Alnum => IsLetter(c) || IsDigit(c)
    case UpperDigitUnderscore => IsUpper(c) || IsDigit(c) || c == '_'
    case Dot => !IsLineTerminator(c)
    case NotChar(x) => c != x
    case HexLower => ('a' <= c <= 'f') || IsDigit(c)
    case WordOrDot => IsWordChar(c) || c == '.'
  }

  datatype Rx =
    | Str(lit: string)            // literal text
    | One(cls: CharClass)         // one character of a class
    | Many(cls: CharClass, min: nat) // cls{min,}: `*` is min 0, `+` is min 1
    | Cat(left: Rx, right: Rx)
    | Alt(left: Rx, right: Rx)
    | Bol                         // ^
    | Eol                         // $

  /** Every character of `s[i..j]` is in class `k`. */
  predicate AllIn(k: CharClass, s: string, i: nat, j: nat)
    requires i <= j <= |s|
  {
    forall t :: i <= t < j ==> InClass(k, s[t])
  }

  /** The positions at which a match of `r` starting at `i` in `s` can end. */
  function Ends(r: Rx, s: string, i: nat): (e: set<nat>)
    requires i <= |s|
    ensures forall j :: j in e ==> i <= j <= |s|
  {
    match r
    case Str(p) => if IsAt(s, p, i) then {i + |p|} else {}
    case One(k) => if i < |s| && InClass(k, s[i]) then {i + 1} else {}
    case Many(k, min) => set j: nat | i + min <= j <= |s| && AllIn(k, s, i, j)
    case Cat(a, b) => set m, j | m in Ends(a, s, i) && j in Ends(b, s, m) :: j
    case Alt(a, b) => Ends(a, s, i) + Ends(b, s, i)
    case Bol => if i == 0 then {i} else {}
    case Eol => if i == |s| then {i} else {}
  }

  /** `re.test(s)`: some match starts somewhere in `s`. */
  predicate Test(r: Rx, s: string)
  {
    exists i: nat | i <= |s| :: Ends(r, s, i) != {}
  }

  /** The patterns in order, one after another. */
  function Seq(rs: seq<Rx>): Rx
  {
    if rs == [] then Str("")
    else if |rs| == 1 then rs[0]
    else Cat(rs[0], Seq(rs[1..]))
  }

  /** A literal pattern matches exactly where `includes` finds it. */
  lemma TestStr(s: string, p: string)
    ensures Test(Str(p), s) <==> Contains(s, p)
  {
    if Contains(s, p) {
      var i: nat :| i <= |s| && IsAt(s, p, i);
      assert i + |p| in Ends(Str(p), s, i);
    }
  }
}

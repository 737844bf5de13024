/** Block labels as the builder makes them: a base, a dot and a number. */
module Labels {
  import opened Cir

  datatype Base =
    | Dead | IfThen | IfElse | IfEnd
    | WhileHead | WhileBody | WhileEnd
    | ForHead | ForBody | ForStep | ForEnd
    | AndRhs | AndEnd | OrRhs | OrEnd

  function Text(b: Base): string {
    match b
    case Dead => "dead"
    case IfThen => "if.then"
    case IfElse => "if.else"
    case IfEnd => "if.end"
    case WhileHead => "while.head"
    case WhileBody => "while.body"
    case WhileEnd => "while.end"
    case ForHead => "for.head"
    case ForBody => "for.body"
    case ForStep => "for.step"
    case ForEnd => "for.end"
    case AndRhs => "and.rhs"
    case AndEnd => "and.end"
    case OrRhs => "or.rhs"
    case OrEnd => "or.end"
  }

  function Digits(n: nat): (s: string)
    ensures s != [] && '.' !in s
  {
    if n < 10 then ["0123456789"[n]] else Digits(n / 10) + ["0123456789"[n % 10]]
  }

  function MakeLabel(b: Base, n: nat): Label {
    Label(Text(b) + "." + Digits(n))
  }

  const ENTRY := Label("entry")

  lemma {:induction false} DigitsDiffer(m: nat, n: nat)
    requires Digits(m) == Digits(n)
    ensures m == n
  {
    var s, t := Digits(m), Digits(n);
    assert s[|s| - 1] == "0123456789"[m % 10] && t[|t| - 1] == "0123456789"[n % 10];
    DigitAt(m % 10, n % 10);
    if m >= 10 && n >= 10 {
      assert s[..|s| - 1] == Digits(m / 10) && t[..|t| - 1] == Digits(n / 10);
      DigitsDiffer(m / 10, n / 10);
    }
  }

  lemma DigitAt(i: nat, j: nat)
    requires i < 10 && j < 10 && "0123456789"[i] == "0123456789"[j]
    ensures i == j
  {}

  /** The last dot separates base and number. */
  lemma SplitAtDot(a: string, x: string, b: string, y: string)
    requires a + "." + x == b + "." + y && '.' !in x && '.' !in y
    ensures a == b && x == y
  {
    var l, r := a + "." + x, b + "." + y;
    assert l[|a|] == '.' && r[|b|] == '.';
    assert forall k :: |a| < k < |l| ==> l[k] == x[k - |a| - 1] && l[k] != '.';
    assert forall k :: |b| < k < |r| ==> r[k] == y[k - |b| - 1] && r[k] != '.';
    assert |a| == |b|;
    assert l[..|a|] == a && r[..|b|] == b && l[|a| + 1..] == x && r[|b| + 1..] == y;
  }

  lemma TextDiffers(a: Base, b: Base)
    requires Text(a) == Text(b)
    ensures a == b
  {
    assert |Text(a)| == |Text(b)|;
    assert Text(a)[0] == Text(b)[0] && Text(a)[3] == Text(b)[3];
  }

  // ----- reading a label back -----

  datatype Key = Key(base: Base, n: nat)

  lemma LabelsDiffer(a: Base, m: nat, b: Base, n: nat)
    requires MakeLabel(a, m) == MakeLabel(b, n)
    ensures a == b && m == n
  {
    hide Digits, Text;
    SplitAtDot(Text(a), Digits(m), Text(b), Digits(n));
    TextDiffers(a, b);
    DigitsDiffer(m, n);
  }

  ghost predicate IsMade(l: Label) {
    exists b, n :: l == MakeLabel(b, n)
  }

  ghost function KeyOf(l: Label): Key
    requires IsMade(l)
  {
    var b, n :| l == MakeLabel(b, n);
    Key(b, n)
  }

  /** The base and number of a label are determined by its text. */
  lemma KeyIs(b: Base, n: nat)
    ensures IsMade(MakeLabel(b, n)) && KeyOf(MakeLabel(b, n)) == Key(b, n)
  {
    hide MakeLabel;
    var k := KeyOf(MakeLabel(b, n));
    LabelsDiffer(k.base, k.n, b, n);
  }

  lemma EntryNotMade()
    ensures !IsMade(ENTRY)
  {
    forall b, n ensures MakeLabel(b, n) != ENTRY {
      assert MakeLabel(b, n).text[|Text(b)|] == '.';
      assert '.' !in "entry";
    }
  }
}

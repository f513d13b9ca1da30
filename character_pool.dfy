// The character pool that the generate handler of the password generator
// assembles from the enabled character classes (src/App.jsx:22-34).

module CharacterPool {

  /** The four character classes, named after the strings that `./Character` exports. */
  datatype CharClass = Numbers | UpperCase | LowerCase | Symbols

  /** Position of a class in the order in which the pool is assembled. */
  function Rank(c: CharClass): nat
  {
    match c
    case Numbers => 0
    case UpperCase => 1
    case LowerCase => 2
    case Symbols => 3
  }

  /** The contents of `./Character`: one string per class. That file is not part
      of this model, so the strings are parameters. */
  datatype Alphabets = Alphabets(numbers: string, upperCaseLetters: string,
                                 lowerCaseLetters: string, specialCharacters: string)
  {
    function Text(c: CharClass): string
    {
      match c
      case Numbers => numbers
      case UpperCase => upperCaseLetters
      case LowerCase => lowerCaseLetters
      case Symbols => specialCharacters
    }

    /** Every class offers at least one character. */
    predicate NonEmpty()
    {
      numbers != [] && upperCaseLetters != [] && lowerCaseLetters != [] && specialCharacters != []
    }
  }

  /** The four include-flags of the form. */
  datatype Options = Options(includeUpperCase: bool, includeLowerCase: bool,
                             includeNumbers: bool, includeSymbols: bool)
  {
    predicate Includes(c: CharClass)
    {
      match c
      case Numbers => includeNumbers
      case UpperCase => includeUpperCase
      case LowerCase => includeLowerCase
      case Symbols => includeSymbols
    }

    /** The negation of the guard at the head of the generate handler. */
    predicate AnyIncluded()
    {
      includeUpperCase || includeLowerCase || includeNumbers || includeSymbols
    }
  }

  /** The enabled classes, in assembly order: numbers, upper case, lower case, symbols. */
  function EnabledClasses(o: Options): (cs: seq<CharClass>)
    ensures forall c :: c in cs <==> o.Includes(c)
    ensures forall i, j :: 0 <= i < j < |cs| ==> Rank(cs[i]) < Rank(cs[j])
    ensures cs == [] <==> !o.AnyIncluded()
  {
    (if o.includeNumbers then [Numbers] else [])
    + (if o.includeUpperCase then [UpperCase] else [])
    + (if o.includeLowerCase then [LowerCase] else [])
    + (if o.includeSymbols then [Symbols] else [])
  }

  /** The texts of the given classes, one after the other. */
  function Concat(a: Alphabets, cs: seq<CharClass>): string
  {
    if cs == [] then "" else a.Text(cs[0]) + Concat(a, cs[1..])
  }

  /** The pool the generate handler samples from. */
  function Pool(a: Alphabets, o: Options): string
  {
    Concat(a, EnabledClasses(o))
  }

  lemma {:induction false} ConcatAppend(a: Alphabets, xs: seq<CharClass>, ys: seq<CharClass>)
    ensures Concat(a, xs + ys) == Concat(a, xs) + Concat(a, ys)
  {
    if xs == [] {
      assert xs + ys == ys;
    } else {
      assert (xs + ys)[1..] == xs[1..] + ys;
      ConcatAppend(a, xs[1..], ys);
    }
  }

  lemma {:induction false} ConcatLength(a: Alphabets, cs: seq<CharClass>)
    ensures |Concat(a, cs)| == SumOfLengths(a, cs)
  {
    if cs != [] {
      ConcatLength(a, cs[1..]);
    }
  }

  function SumOfLengths(a: Alphabets, cs: seq<CharClass>): nat
  {
    if cs == [] then 0 else |a.Text(cs[0])| + SumOfLengths(a, cs[1..])
  }

  /** A character lies in the concatenation exactly when it lies in one of the parts. */
  lemma {:induction false} ConcatMember(a: Alphabets, cs: seq<CharClass>, ch: char)
    ensures ch in Concat(a, cs) <==> exists i :: 0 <= i < |cs| && ch in a.Text(cs[i])
  {
    if cs != [] {
      ConcatMember(a, cs[1..], ch);
      if ch in Concat(a, cs) {
        if ch !in a.Text(cs[0]) {
          var i :| 0 <= i < |cs[1..]| && ch in a.Text(cs[1..][i]);
          assert ch in a.Text(cs[i + 1]);
        }
      }
      if exists i :: 0 <= i < |cs| && ch in a.Text(cs[i]) {
        var i :| 0 <= i < |cs| && ch in a.Text(cs[i]);
        if i > 0 {
          assert ch in a.Text(cs[1..][i - 1]);
        }
      }
    }
  }

  /** Pool membership: a character is in the pool exactly when some enabled class offers it. */
  lemma PoolMember(a: Alphabets, o: Options, ch: char)
    ensures ch in Pool(a, o) <==> exists c :: o.Includes(c) && ch in a.Text(c)
  {
    var cs := EnabledClasses(o);
    ConcatMember(a, cs, ch);
    if exists c :: o.Includes(c) && ch in a.Text(c) {
      var c :| o.Includes(c) && ch in a.Text(c);
      assert c in cs;
      var i :| 0 <= i < |cs| && cs[i] == c;
    }
  }

  /** The pool is empty when no flag is set, and non-empty otherwise as long as
      every class offers a character. */
  lemma PoolEmptiness(a: Alphabets, o: Options)
    ensures !o.AnyIncluded() ==> Pool(a, o) == ""
    ensures a.NonEmpty() && o.AnyIncluded() ==> Pool(a, o) != ""
  {
  }

  /** The pool's length is the sum of the lengths of the enabled classes. */
  lemma PoolLength(a: Alphabets, o: Options)
    ensures |Pool(a, o)| ==
      (if o.includeNumbers then |a.numbers| else 0)
      + (if o.includeUpperCase then |a.upperCaseLetters| else 0)
      + (if o.includeLowerCase then |a.lowerCaseLetters| else 0)
      + (if o.includeSymbols then |a.specialCharacters| else 0)
  {
    var n := if o.includeNumbers then [Numbers] else [];
    var u := if o.includeUpperCase then [UpperCase] else [];
    var l := if o.includeLowerCase then [LowerCase] else [];
    var s := if o.includeSymbols then [Symbols] else [];
    ConcatAppend(a, n + u + l, s);
    ConcatAppend(a, n + u, l);
    ConcatAppend(a, n, u);
    ConcatLength(a, n + u + l + s);
    ConcatLength(a, n);
    ConcatLength(a, u);
    ConcatLength(a, l);
    ConcatLength(a, s);
  }

  /** The step-by-step assembly of `characterList` in the generate handler: start
      from the empty string and append each enabled class in turn. */
  method AssembleCharacterList(a: Alphabets, o: Options) returns (characterList: string)
    ensures characterList == Pool(a, o)
  {
    ghost var done: seq<CharClass> := [];
    characterList := "";
    if o.includeNumbers {
      characterList := characterList + a.numbers;
      AppendClass(a, done, Numbers);
      done := done + [Numbers];
    }
    assert characterList == Concat(a, done);
    if o.includeUpperCase {
      characterList := characterList + a.upperCaseLetters;
      AppendClass(a, done, UpperCase);
      done := done + [UpperCase];
    }
    assert characterList == Concat(a, done);
    if o.includeLowerCase {
      characterList := characterList + a.lowerCaseLetters;
      AppendClass(a, done, LowerCase);
      done := done + [LowerCase];
    }
    assert characterList == Concat(a, done);
    if o.includeSymbols {
      characterList := characterList + a.specialCharacters;
      AppendClass(a, done, Symbols);
      done := done + [Symbols];
    }
    assert characterList == Concat(a, done);
    assert done == EnabledClasses(o);
  }

  /** Appending one class to the list of classes appends its text to the concatenation. */
  lemma AppendClass(a: Alphabets, done: seq<CharClass>, c: CharClass)
    ensures Concat(a, done + [c]) == Concat(a, done) + a.Text(c)
  {
    ConcatAppend(a, done, [c]);
    assert Concat(a, [c]) == a.Text(c) + Concat(a, []);
  }
}

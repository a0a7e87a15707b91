/** The feedback strings shown after an attempt: the fixed message classes and
    constants, the fallback plural selector, and the three count messages. */
module FeedbackMessages {
  import opened Optional
  import opened Decimal

  // Message classes; the three per-outcome names are aliases.
  const CorrectSolution: string := "correct"
  const PartialSolution: string := "partial"
  const IncorrectSolution: string := "incorrect"
  const CorrectlyPlacedClass: string := CorrectSolution
  const MisplacedClass: string := IncorrectSolution
  const NotPlacedClass: string := IncorrectSolution

  const FinalAttemptTemplate: string := "Final attempt was used, highest score is {score}"
  const MisplacedItemsReturned: string := "Misplaced item(s) were returned to item bank."

  /** A message and its message class, which may be `None`. */
  datatype FeedbackMessage = FeedbackMessage(message: string, messageClass: Option<string>)

  /** Per-attempt placement counts. */
  datatype ItemStats = ItemStats(required: nat, placed: nat, correctlyPlaced: nat, decoy: nat, decoyInBank: nat)

  /** A message template with exactly one integer field: the text before the
      field and the text after it. */
  datatype Template = Template(prefix: string, suffix: string)

  /** Reads the count back out of a message built from `t`; `None` when the
      message does not have the template's shape. */
  function ParseMessage(t: Template, msg: string): Option<int>
  {
    if |msg| >= |t.prefix| + |t.suffix|
       && msg[..|t.prefix|] == t.prefix
       && msg[|msg| - |t.suffix|..] == t.suffix
    then ParseInt(msg[|t.prefix|..|msg| - |t.suffix|])
    else None
  }

  /** Reading back a template's fixed texts around a rendered count yields
      that count. */
  lemma FormatRoundTrip(t: Template, n: int)
    ensures ParseMessage(t, t.prefix + IntToString(n) + t.suffix) == Some(n)
  {
    var msg := t.prefix + IntToString(n) + t.suffix;
    assert msg[..|t.prefix|] == t.prefix;
    assert msg[|msg| - |t.suffix|..] == t.suffix;
    assert msg[|t.prefix|..|msg| - |t.suffix|] == IntToString(n);
    ParseIntOfIntToString(n);
  }

  /** `str.format` of a one-field template with an integer argument: the
      count substituted into the field can be read back out of the result. */
  function Format(t: Template, n: int): (r: string)
    ensures ParseMessage(t, r) == Some(n)
  {
    FormatRoundTrip(t, n);
    t.prefix + IntToString(n) + t.suffix
  }

  /** Two counts give the same message only if they are the same count. */
  lemma FormatInjective(t: Template, n: int, m: int)
    ensures Format(t, n) == Format(t, m) ==> n == m
  {
  }

  /** The stand-in for `ngettext` used when no translation service is given.
      When the two forms differ, the singular is chosen exactly when the
      count is one; zero and negative counts take the plural. */
  function NGettextFallback<T>(singular: T, plural: T, number: int): (r: T)
    ensures number == 1 ==> r == singular
    ensures number != 1 ==> r == plural
    ensures singular != plural ==> (r == singular <==> number == 1)
    ensures singular != plural ==> (r == plural <==> number != 1)
  {
    if number == 1 then singular else plural
  }

  /** Two templates whose filled-in messages can never coincide, because
      their fixed texts have different lengths. */
  predicate Distinguishable(one: Template, many: Template)
  {
    |one.prefix| + |one.suffix| != |many.prefix| + |many.suffix|
  }

  /** Selects the form by `number` and substitutes `number` into it. */
  function PluralMessage(one: Template, many: Template, number: int): (r: string)
    requires Distinguishable(one, many)
    ensures number == 1 ==> ParseMessage(one, r) == Some(1)
    ensures number != 1 ==> ParseMessage(many, r) == Some(number)
    ensures r == Format(one, number) <==> number == 1
    ensures r == Format(many, number) <==> number != 1
  {
    Format(NGettextFallback(one, many, number), number)
  }

  const CorrectlyPlacedOne: Template := Template("Correctly placed ", " item.")
  const CorrectlyPlacedMany: Template := Template("Correctly placed ", " items.")
  const MisplacedOne: Template :=
    Template("Misplaced ", " item. Misplaced item was returned to item bank.")
  const MisplacedMany: Template :=
    Template("Misplaced ", " items. Misplaced items were returned to item bank.")
  const NotPlacedOne: Template := Template("Did not place ", " required item.")
  const NotPlacedMany: Template := Template("Did not place ", " required items.")

  /** "Correctly placed N item(s)." */
  function CorrectlyPlaced(number: int): (r: string)
    ensures number == 1 ==> ParseMessage(CorrectlyPlacedOne, r) == Some(1)
    ensures number != 1 ==> ParseMessage(CorrectlyPlacedMany, r) == Some(number)
    ensures r == Format(CorrectlyPlacedOne, number) <==> number == 1
    ensures r == Format(CorrectlyPlacedMany, number) <==> number != 1
  {
    PluralMessage(CorrectlyPlacedOne, CorrectlyPlacedMany, number)
  }

  /** "Misplaced N item(s). Misplaced item(s) was/were returned to item bank." */
  function Misplaced(number: int): (r: string)
    ensures number == 1 ==> ParseMessage(MisplacedOne, r) == Some(1)
    ensures number != 1 ==> ParseMessage(MisplacedMany, r) == Some(number)
    ensures r == Format(MisplacedOne, number) <==> number == 1
    ensures r == Format(MisplacedMany, number) <==> number != 1
  {
    PluralMessage(MisplacedOne, MisplacedMany, number)
  }

  /** "Did not place N required item(s)." */
  function NotPlaced(number: int): (r: string)
    ensures number == 1 ==> ParseMessage(NotPlacedOne, r) == Some(1)
    ensures number != 1 ==> ParseMessage(NotPlacedMany, r) == Some(number)
    ensures r == Format(NotPlacedOne, number) <==> number == 1
    ensures r == Format(NotPlacedMany, number) <==> number != 1
  {
    PluralMessage(NotPlacedOne, NotPlacedMany, number)
  }

  /** Messages the widget's own feedback shows, spelled out. */
  lemma CorrectlyPlacedExamples()
    ensures CorrectlyPlaced(1) == "Correctly placed 1 item."
    ensures CorrectlyPlaced(4) == "Correctly placed 4 items."
  {
    assert IntToString(1) == "1";
    assert IntToString(4) == "4";
  }

  lemma MisplacedExample()
    ensures Misplaced(1) == "Misplaced 1" + MisplacedOne.suffix
  {
    assert IntToString(1) == "1";
    assert Misplaced(1) == Format(MisplacedOne, 1);
    assert Format(MisplacedOne, 1) == "Misplaced " + "1" + MisplacedOne.suffix;
  }

  lemma NotPlacedExamples()
    ensures NotPlaced(0) == "Did not place 0 required items."
    ensures NotPlaced(3) == "Did not place 3 required items."
  {
    assert IntToString(0) == "0";
    assert IntToString(3) == "3";
  }
}

/**
 * The verbose notation of the `showCoord` parameter, `(x: A°) , (y: B°) , WKID: W`, and its
 * plain counterpart `A,B,W`: what the `replaceAll` calls of either bundle do to the pieces
 * of decoration between the numbers, and how the plain notation splits.
 *
 * Lemmas about fixed strings often take the string as a parameter pinned by a `requires`
 * (`requires s == "(x: "`). The verifier then reasons about an unknown string equal to the
 * literal, instead of evaluating every `replaceAll` on the literal up front, which keeps
 * these proofs small.
 */
module VerboseNotation {
  import opened JsString

  /** A run of digits, decimal points and minus signs: a coordinate or WKID as typed. */
  predicate Numeral(m: string)
  {
    m != [] && forall c :: c in m ==> '0' <= c <= '9' || c == '.' || c == '-'
  }

  lemma NumeralsCommaFree(a: string, b: string, w: string)
    requires Numeral(a) && Numeral(b) && Numeral(w)
    ensures ',' !in a && ',' !in b && ',' !in w
  {
  }

  /** The plain notation `A,B,W`. */
  function Plain(a: string, b: string, w: string): string
  {
    a + ("," + (b + ("," + w)))
  }

  /** The plain notation splits into its three parts when none of them holds a comma. */
  lemma PlainSplits(a: string, b: string, w: string)
    requires ',' !in a && ',' !in b && ',' !in w
    ensures Split(Plain(a, b, w), ',') == [a, b, w]
  {
    SplitWhole(w, ',');
    assert b + ("," + w) == b + [','] + w;
    SplitAfterSeparator(b, ',', w);
    assert Plain(a, b, w) == a + [','] + (b + ("," + w));
    SplitAfterSeparator(a, ',', b + ("," + w));
  }

  /** Decorations that cleaned to nothing leave the plain notation. */
  lemma EmptyDecorations(e1: string, e2: string, e3: string, e4: string, e5: string, a: string, b: string, w: string)
    requires e1 == [] && e2 == [] && e3 == [] && e4 == [] && e5 == []
    ensures e1 + a + (e2 + "," + (e3 + b + (e2 + "," + (e4 + w + e5)))) == Plain(a, b, w)
  {
  }

  /** `(x: ` loses its bracket, then its space, then its label. */
  lemma OpeningXSteps()
    ensures RemoveAll("(x: ", "(") == "x: " && RemoveAll("x: ", " ") == "x:" && RemoveAll("x:", "x:") == []
  {
    assert "(x: " == "(" + "x: ";
    RemoveAllAtMatch("(", "x: ");
    RemoveAllAbsent("x: ", "(", '(');
    assert "x: " == "x:" + " ";
    RemoveAllConcat("x:", " ", " ");
    RemoveAllAbsent("x:", " ", ' ');
    RemoveAllAtMatch(" ", []);
    RemoveAllAtMatch("x:", []);
  }

  /** ` (y: ` loses its bracket, then its spaces, then its label. */
  lemma OpeningYSteps()
    ensures RemoveAll(" (y: ", "(") == " y: " && RemoveAll(" y: ", " ") == "y:" && RemoveAll("y:", "y:") == []
  {
    assert " (y: " == " " + ("(" + "y: ");
    RemoveAllConcat(" ", "(" + "y: ", "(");
    RemoveAllAbsent(" ", "(", '(');
    RemoveAllAtMatch("(", "y: ");
    RemoveAllAbsent("y: ", "(", '(');
    assert " y: " == " " + ("y:" + " ");
    RemoveAllAtMatch(" ", "y:" + " ");
    RemoveAllConcat("y:", " ", " ");
    RemoveAllAbsent("y:", " ", ' ');
    RemoveAllAtMatch(" ", []);
    RemoveAllAtMatch("y:", []);
  }

  /** ` WKID: ` loses its spaces, then its label. */
  lemma WkidLabelSteps(s: string, tag: string)
    requires s == " WKID: " && tag == "WKID:"
    ensures RemoveAll(s, " ") == tag && RemoveAll(tag, tag) == []
  {
    assert s == " " + (tag + " ");
    RemoveAllAtMatch(" ", tag + " ");
    RemoveAllConcat(tag, " ", " ");
    RemoveAllAbsent(tag, " ", ' ');
    RemoveAllAtMatch(" ", []);
    RemoveAllAtMatch(tag, []);
  }

  /** The other labels, `WKID=` included, leave the label `WKID:` alone. */
  lemma WkidLabelKept(tag: string)
    requires tag == "WKID:"
    ensures RemoveAll(tag, "x:") == tag && RemoveAll(tag, "x=") == tag
    ensures RemoveAll(tag, "y:") == tag && RemoveAll(tag, "y=") == tag
    ensures RemoveAll(tag, "WKID=") == tag
  {
    RemoveAllAbsent(tag, "x:", 'x');
    RemoveAllAbsent(tag, "x=", 'x');
    RemoveAllAbsent(tag, "y:", 'y');
    RemoveAllAbsent(tag, "y=", 'y');
    RemoveAllAbsent(tag, "WKID=", '=');
  }
}

/**
 * The closed-set guard of `categorize_purchase`: the model's answer,
 * trimmed, is kept when it is one of the thirteen labels and replaced by
 * "Other" otherwise.
 */
module Category {
  import opened PyStr

  const Categories: seq<string> := [
    "Groceries", "Transportation", "Eating Out", "Bills", "Entertainment",
    "Health", "Personal Care", "Education", "Clothing",
    "Travel", "Gifts", "Subscriptions", "Other"
  ]

  const Fallback: string := "Other"

  /** The label recorded for the model's `answer`: always one of `Categories`. */
  function CoerceCategory(answer: string): (r: string)
    ensures r in Categories
    ensures Strip(answer) in Categories ==> r == Strip(answer)
    ensures Strip(answer) !in Categories ==> r == Fallback
  {
    var trimmed := Strip(answer);
    if trimmed in Categories then trimmed else Fallback
  }

  /** No label carries whitespace at either end, so trimming leaves each unchanged. */
  lemma LabelsAreTrimmed()
    ensures forall k :: 0 <= k < |Categories| ==> Strip(Categories[k]) == Categories[k]
  {
    forall k | 0 <= k < |Categories| ensures Strip(Categories[k]) == Categories[k] {
      var c := Categories[k];
      StripPadding([], c, []);
      assert [] + c + [] == c;
    }
  }

  /** A label surrounded by whitespace is recognised and returned without it. */
  lemma PaddedLabel(pre: string, name: string, post: string)
    requires name in Categories && Blank(pre) && Blank(post)
    ensures CoerceCategory(pre + name + post) == name
  {
    LabelsAreTrimmed();
    StripPadding(pre, name, post);
  }

  /** An empty or all-whitespace answer becomes "Other". */
  lemma BlankIsOther(answer: string)
    requires Blank(answer)
    ensures CoerceCategory(answer) == Fallback
  {
    StripPadding(answer, [], []);
    assert answer + [] + [] == answer;
  }

  /** Coercing an already coerced label changes nothing. */
  lemma CoerceIdempotent(answer: string)
    ensures CoerceCategory(CoerceCategory(answer)) == CoerceCategory(answer)
  {
    LabelsAreTrimmed();
  }
}

/**
 * The deterministic part of `extract_transaction_info`: the language
 * model's completion is trimmed, unwrapped from a Markdown code fence and
 * handed to the JSON parser; anything that goes wrong yields the
 * "not a credit-card transaction" record.
 */
module Unwrap {
  import opened Wrappers
  import opened PyStr
  import opened JsonValue

  const Fence: string := "```"
  const JsonFence: string := "```json"

  /** `{"is_credit_card": False}`, the record returned whenever parsing fails. */
  const NotACard: Json := JObj(map["is_credit_card" := JBool(false)])

  predicate JsonFenced(content: string)
  {
    StartsWith(content, JsonFence) && EndsWith(content, Fence)
  }

  predicate Fenced(content: string)
  {
    StartsWith(content, Fence) && EndsWith(content, Fence)
  }

  /** `content[content.find('{'):content.rfind('}') + 1]` */
  function BraceSpan(content: string): string
  {
    Slice(content, Find(content, '{'), RFind(content, '}') + 1)
  }

  /** `'\n'.join(content.split('\n')[1:-1])` */
  function InnerLines(content: string): string
  {
    Join(Slice(Split(content, '\n'), 1, -1), '\n')
  }

  /**
   * The text handed to the JSON parser: the brace span of a ```json fence,
   * the inner lines of any other fence, or the content itself. The ```json
   * test is made first.
   */
  function Payload(content: string): (r: string)
    ensures !Fenced(content) ==> r == content
  {
    if JsonFenced(content) then
      assert content[..|Fence|] == content[..|JsonFence|][..|Fence|];
      BraceSpan(content)
    else if Fenced(content) then InnerLines(content)
    else content
  }

  /**
   * In a text ending with the closing fence ```, the brace span is the text from the
   * first `{` through the last `}`, and empty when either brace is missing
   * or the last `}` comes before the first `{`.
   */
  lemma BraceSpanBetween(content: string, i: int, j: int)
    requires EndsWith(content, Fence)
    requires i == Find(content, '{') && j == RFind(content, '}')
    ensures BraceSpan(content) == if 0 <= i < j then content[i..j + 1] else []
  {
    if i == -1 {
      NoOpeningBrace(content);
      assert BraceSpan(content) == [] && !(0 <= i < j);
    } else if j == -1 {
      NoClosingBrace(content);
      assert BraceSpan(content) == [] && !(0 <= i < j);
    } else {
      BothBraces(content, i, j);
      if i < j {
        assert BraceSpan(content) == content[i..j + 1];
      } else {
        assert BraceSpan(content) == [];
      }
    }
  }

  lemma NoOpeningBrace(content: string)
    requires EndsWith(content, Fence) && Find(content, '{') == -1
    ensures BraceSpan(content) == []
  {
    var n := |content|;
    assert content[n - 1] == content[n - |Fence|..][2] == '`';
    assert Clamp(-1, n) == n - 1;
    assert RFind(content, '}') < n - 1;
  }

  lemma NoClosingBrace(content: string)
    requires RFind(content, '}') == -1
    ensures BraceSpan(content) == []
  {
    assert Clamp(0, |content|) == 0;
  }

  lemma BothBraces(content: string, i: nat, j: nat)
    requires i == Find(content, '{') && j == RFind(content, '}')
    ensures BraceSpan(content) == if i < j then content[i..j + 1] else []
  {
    assert content[i] != content[j];
    assert Clamp(i, |content|) == i && Clamp(j + 1, |content|) == j + 1;
  }

  /** A brace span that is not empty runs from a `{` to a `}`. */
  lemma BraceSpanEnds(content: string)
    requires EndsWith(content, Fence)
    ensures var r := BraceSpan(content);
      r == [] || (r[0] == '{' && r[|r| - 1] == '}')
  {
    var i, j := Find(content, '{'), RFind(content, '}');
    BraceSpanBetween(content, i, j);
    if 0 <= i < j {
      var r := content[i..j + 1];
      assert r[0] == content[i] && r[|r| - 1] == content[j];
    }
  }

  /** A ```json fence yields exactly an outermost `{...}` span, or nothing. */
  lemma JsonFencePayload(content: string)
    requires JsonFenced(content)
    ensures var i, j := Find(content, '{'), RFind(content, '}');
      Payload(content) == if 0 <= i < j then content[i..j + 1] else []
    ensures var r := Payload(content);
      r == [] || (r[0] == '{' && r[|r| - 1] == '}')
  {
    BraceSpanBetween(content, Find(content, '{'), RFind(content, '}'));
    BraceSpanEnds(content);
    assert Payload(content) == BraceSpan(content);
  }

  /**
   * The inner lines of a text are what lies strictly between its first and
   * its last line break; with fewer than two line breaks there are none.
   */
  lemma InnerLinesBetween(content: string)
    ensures var f, l := Find(content, '\n'), RFind(content, '\n');
      InnerLines(content) == if f < l then content[f + 1..l] else []
  {
    var f, l := Find(content, '\n'), RFind(content, '\n');
    if f == -1 {
      NoSeparator(content, '\n');
      assert Slice(Split(content, '\n'), 1, -1) == [];
    } else if f == l {
      OneLineBreak(content, f);
    } else {
      TwoLineBreaks(content, f, l);
    }
  }

  lemma OneLineBreak(content: string, f: nat)
    requires f < |content| && content[f] == '\n'
    requires '\n' !in content[..f] && '\n' !in content[f + 1..]
    ensures InnerLines(content) == []
  {
    var u := content[f + 1..];
    assert content == content[..f] + ['\n'] + u;
    SplitCons(content[..f], u, '\n');
    NoSeparator(u, '\n');
    assert Split(content, '\n') == [content[..f], u];
    assert Slice(Split(content, '\n'), 1, -1) == [];
  }

  lemma TwoLineBreaks(content: string, f: nat, l: nat)
    requires f < l < |content| && content[f] == '\n' && content[l] == '\n'
    requires '\n' !in content[..f] && '\n' !in content[l + 1..]
    ensures InnerLines(content) == content[f + 1..l]
  {
    var middle := content[f + 1..l];
    var lines := Split(content, '\n');
    LinesAroundBreaks(content, f, l);
    assert Slice(lines, 1, -1) == lines[1..|lines| - 1] == Split(middle, '\n');
    JoinSplit(middle, '\n');
  }

  /** The lines of a text are its first line, the lines between its first and last break, and its last line. */
  lemma LinesAroundBreaks(content: string, f: nat, l: nat)
    requires f < l < |content| && content[f] == '\n' && content[l] == '\n'
    requires '\n' !in content[..f] && '\n' !in content[l + 1..]
    ensures Split(content, '\n') == [content[..f]] + Split(content[f + 1..l], '\n') + [content[l + 1..]]
  {
    SplitAt(content, f);
    SplitCons(content[..f], content[f + 1..], '\n');
    SuffixSplitAt(content, f + 1, l);
    SplitSnoc(content[f + 1..l], content[l + 1..], '\n');
  }

  lemma SplitAt<T>(s: seq<T>, i: nat)
    requires i < |s|
    ensures s == s[..i] + [s[i]] + s[i + 1..]
  {
  }

  lemma SuffixSplitAt<T>(s: seq<T>, i: nat, j: nat)
    requires i <= j < |s|
    ensures s[i..] == s[i..j] + [s[j]] + s[j + 1..]
  {
  }

  /**
   * A fence other than ```json yields the text between its first and last
   * line break: the opening and closing fence lines are dropped.
   */
  lemma GenericFencePayload(content: string)
    requires Fenced(content) && !StartsWith(content, JsonFence)
    ensures var f, l := Find(content, '\n'), RFind(content, '\n');
      Payload(content) == if f < l then content[f + 1..l] else []
  {
    InnerLinesBetween(content);
  }

  /** A lone fence yields the empty payload. */
  lemma LoneFence()
    ensures Payload(Fence) == []
  {
    assert !StartsWith(Fence, JsonFence);
    GenericFencePayload(Fence);
    assert '\n' !in Fence;
  }

  /**
   * The ```json test comes first: a one-line ```json fence around an
   * object keeps the object, where the line-dropping rule would keep
   * nothing.
   */
  lemma JsonFenceFirst(content: string)
    requires JsonFenced(content) && '\n' !in content
    requires 0 <= Find(content, '{') < RFind(content, '}')
    ensures InnerLines(content) == [] && Payload(content) != []
  {
    InnerLinesBetween(content);
    JsonFencePayload(content);
  }

  /**
   * `extract_transaction_info` after the model call: never fails; it gives
   * the parsed payload of the trimmed completion when there is a completion
   * and the parser accepts the payload, and exactly `NotACard` otherwise.
   */
  function ExtractTransactionInfo(completion: Option<string>, parse: string -> Option<Json>): (r: Json)
    ensures completion.Some? && parse(Payload(Strip(completion.value))).Some? ==>
      Some(r) == parse(Payload(Strip(completion.value)))
    ensures completion.None? || parse(Payload(Strip(completion.value))).None? ==> r == NotACard
  {
    match completion
    case None => NotACard
    case Some(content) =>
      match parse(Payload(Strip(content)))
      case None => NotACard
      case Some(parsed) => parsed
  }

  /**
   * A ```json fence without a well-ordered brace pair (no `{`, no `}`, or
   * the last `}` before the first `{`) yields the empty payload, and since
   * the empty text is not JSON, the record for "not a card".
   */
  lemma BracelessJsonFence(completion: string, parse: string -> Option<Json>)
    requires JsonFenced(Strip(completion))
    requires !(0 <= Find(Strip(completion), '{') < RFind(Strip(completion), '}'))
    requires parse([]).None?
    ensures ExtractTransactionInfo(Some(completion), parse) == NotACard
  {
    JsonFencePayload(Strip(completion));
  }
}

/**
 * GenericTokenParser: replaces every `open ... close` token of a text by
 * what the handler makes of its content.  A backslash right before an
 * open token makes that token literal; inside a token, a backslash right
 * before a close token makes it part of the content.  An open token that
 * is never closed leaves the rest of the text as it is.
 */
module TokenParsers {
  import opened Lang
  import opened Text

  /** The output text and the handler's arguments, in call order. */
  datatype Parsed = Parsed(text: string, calls: seq<string>)

  /** Where the scan for a close token stopped: the content gathered, the close token's position (or -1), and the scan offset. */
  datatype CloseScan = CloseScan(expression: string, end: int, offset: nat)

  /**
   * What one round of the scan finds, with `at` the position of the open
   * token and `next` where the following round starts.
   */
  datatype Step =
    | Done
    | Literal(at: nat, next: nat)
    | Token(at: nat, content: string, next: nat)
    | Unclosed

  class GenericTokenParser {
    const openToken: string
    const closeToken: string
    const handler: string -> string

    /**
     * Tokens must be non-empty and must not end in a backslash; otherwise
     * the scan does not advance or copies a range of negative length.
     */
    predicate Valid() {
      |openToken| > 0 && |closeToken| > 0 &&
      openToken[|openToken| - 1] != '\\' && closeToken[|closeToken| - 1] != '\\'
    }

    constructor (openToken: string, closeToken: string, handler: string -> string)
      requires |openToken| > 0 && |closeToken| > 0
      requires openToken[|openToken| - 1] != '\\' && closeToken[|closeToken| - 1] != '\\'
      ensures Valid() && this.openToken == openToken && this.closeToken == closeToken && this.handler == handler
    {
      this.openToken := openToken;
      this.closeToken := closeToken;
      this.handler := handler;
    }

    /** A scan may resume at `offset`: the start, the end, or just after a token, whose last character is never a backslash. */
    predicate Resumable(text: string, offset: nat) {
      offset <= |text| && (offset == 0 || offset == |text| || text[offset - 1] != '\\')
    }

    /** The content of a token whose text starts at `offset`, with escaped close tokens taken in. */
    function ScanClose(text: string, offset: nat, expression: string): (sc: CloseScan)
      requires Valid() && offset <= |text|
      ensures offset <= sc.offset <= |text|
      ensures sc.end == -1 || (sc.offset <= sc.end && sc.end + |closeToken| <= |text|)
      decreases |text| - offset, 1
    {
      ScanAt(text, offset, expression, IndexOf(text, closeToken, offset))
    }

    /** The close-token scan from `offset`, where `end` is the next close token (or -1). */
    function ScanAt(text: string, offset: nat, expression: string, end: int): (sc: CloseScan)
      requires Valid() && offset <= |text| && (end == -1 || (offset <= end && end + |closeToken| <= |text|))
      ensures offset <= sc.offset <= |text|
      ensures sc.end == -1 || (sc.offset <= sc.end && sc.end + |closeToken| <= |text|)
      decreases |text| - offset, 0
    {
      if end == -1 then CloseScan(expression, -1, offset)
      else if end > offset && text[end - 1] == '\\' then
        ScanClose(text, end + |closeToken|, expression + text[offset..end - 1] + closeToken)
      else CloseScan(expression + text[offset..end], end, offset)
    }

    /** A close token found by the scan is really there. */
    lemma {:induction false} ScanCloseOccurs(text: string, offset: nat, expression: string)
      requires Valid() && offset <= |text|
      ensures var sc := ScanClose(text, offset, expression); sc.end == -1 || OccursAt(text, closeToken, sc.end)
      decreases |text| - offset
    {
      var end := IndexOf(text, closeToken, offset);
      IndexOfOccurs(text, closeToken, offset);
      if end != -1 && end > offset && text[end - 1] == '\\' {
        ScanCloseOccurs(text, end + |closeToken|, expression + text[offset..end - 1] + closeToken);
      }
    }

    /** A round that moves forward to a place where the scan may resume. */
    predicate Advances(text: string, offset: nat, st: Step) {
      && (st.Literal? ==> offset < st.at < st.next <= |text| && Resumable(text, st.next))
      && (st.Token? ==> offset <= st.at < st.next <= |text| && Resumable(text, st.next))
    }

    /**
     * One round of the scan from `offset`: done (no open token left), an
     * escaped open token copied literally, a complete token, or an open
     * token never closed.
     */
    function StepAt(text: string, offset: nat): Step
      requires Valid() && Resumable(text, offset)
    {
      var start := IndexOf(text, openToken, offset);
      if start == -1 then Done
      else StepFrom(text, start, ScanClose(text, start + |openToken|, ""))
    }

    /** The round for the open token at `start`, given the close-token scan after it. */
    function StepFrom(text: string, start: nat, sc: CloseScan): Step
      requires start <= |text| && sc.end >= -1
    {
      if start > 0 && text[start - 1] == '\\' then Literal(start, start + |openToken|)
      else if sc.end == -1 then Unclosed
      else Token(start, sc.expression, sc.end + |closeToken|)
    }

    /** A round found from an occurrence of the open token, and a close token found after it, moves forward. */
    lemma {:induction false} StepFromAdvances(text: string, offset: nat, start: nat, sc: CloseScan)
      requires Valid() && Resumable(text, offset) && offset <= start && OccursAt(text, openToken, start)
      requires sc.end == -1 || (start + |openToken| <= sc.end && OccursAt(text, closeToken, sc.end))
      ensures Advances(text, offset, StepFrom(text, start, sc))
    {
      OccursAtChar(text, openToken, start, |openToken| - 1);
      if sc.end != -1 {
        OccursAtChar(text, closeToken, sc.end, |closeToken| - 1);
      }
    }

    /** Every round that copies or handles a token moves forward, to a place where the scan may resume. */
    lemma {:induction false} StepAtAdvances(text: string, offset: nat)
      requires Valid() && Resumable(text, offset)
      ensures Advances(text, offset, StepAt(text, offset))
    {
      var start := IndexOf(text, openToken, offset);
      if start != -1 {
        IndexOfOccurs(text, openToken, offset);
        ScanCloseOccurs(text, start + |openToken|, "");
        StepFromAdvances(text, offset, start, ScanClose(text, start + |openToken|, ""));
      }
    }

    /** The output for the text from `offset` on, and the handler calls made for it. */
    function ParseFrom(text: string, offset: nat): Parsed
      requires Valid() && Resumable(text, offset)
      decreases |text| - offset, 1
    {
      StepAtAdvances(text, offset);
      Render(text, offset, StepAt(text, offset))
    }

    /** The output of round `st` found from `offset`, followed by that of the rest of the text. */
    function Render(text: string, offset: nat, st: Step): Parsed
      requires Valid() && offset <= |text| && Advances(text, offset, st)
      decreases |text| - offset, 0
    {
      match st
      case Done => Parsed(text[offset..], [])
      case Unclosed => Parsed(text[offset..], [])
      case Literal(at, next) =>
        var rest := ParseFrom(text, next);
        Parsed(text[offset..at - 1] + openToken + rest.text, rest.calls)
      case Token(at, content, next) =>
        var rest := ParseFrom(text, next);
        Parsed(text[offset..at] + handler(content) + rest.text, [content] + rest.calls)
    }

    /** When no open token is left, or the next one is never closed, the rest of the text is copied as it is. */
    lemma {:induction false} ParseFromEnd(text: string, offset: nat)
      requires Valid() && Resumable(text, offset)
      requires StepAt(text, offset).Done? || StepAt(text, offset).Unclosed?
      ensures ParseFrom(text, offset) == Parsed(text[offset..], [])
    {
    }

    /** An escaped open token: the text before its backslash and the open token itself, then the rest. */
    lemma {:induction false} ParseFromLiteral(text: string, offset: nat)
      requires Valid() && Resumable(text, offset) && StepAt(text, offset).Literal?
      ensures var st := StepAt(text, offset);
        && offset < st.at && st.next <= |text| && Resumable(text, st.next)
        && ParseFrom(text, offset) == Parsed(text[offset..st.at - 1] + openToken + ParseFrom(text, st.next).text, ParseFrom(text, st.next).calls)
    {
      StepAtAdvances(text, offset);
    }

    /** A complete token: the text before it and the handler's value for it, then the rest; its content is the first call. */
    lemma {:induction false} ParseFromToken(text: string, offset: nat)
      requires Valid() && Resumable(text, offset) && StepAt(text, offset).Token?
      ensures var st := StepAt(text, offset);
        && offset <= st.at < st.next <= |text| && Resumable(text, st.next)
        && ParseFrom(text, offset) == Parsed(text[offset..st.at] + handler(st.content) + ParseFrom(text, st.next).text, [st.content] + ParseFrom(text, st.next).calls)
    {
      StepAtAdvances(text, offset);
    }

    /** StepAt when the next open token is not escaped, in terms of the close-token scan after it. */
    lemma {:induction false} StepAtUnescaped(text: string, offset: nat, start: int, sc: CloseScan)
      requires Valid() && Resumable(text, offset)
      requires start == IndexOf(text, openToken, offset) && start != -1
      requires !(start > 0 && text[start - 1] == '\\')
      requires sc == ScanClose(text, start + |openToken|, "")
      ensures sc.end == -1 ==> StepAt(text, offset) == Unclosed
      ensures sc.end != -1 ==> StepAt(text, offset) == Token(start, sc.expression, sc.end + |closeToken|)
    {
    }

    /** What `parse` returns for a possibly null text. */
    function Parse(text: Option<string>): Parsed
      requires Valid()
    {
      if text.None? || text.value == [] then Parsed("", [])
      else ParseFrom(text.value, 0)
    }

    /** The close-token scan of `parse`: gathers the token content up to the first unescaped close token. */
    method ScanForClose(src: string, start: nat) returns (expression: string, end: int, offset: nat)
      requires Valid() && start <= |src|
      ensures CloseScan(expression, end, offset) == ScanClose(src, start, "")
    {
      expression := "";
      offset := start;
      end := IndexOf(src, closeToken, offset);
      while end > -1
        invariant offset <= |src|
        invariant end == IndexOf(src, closeToken, offset)
        invariant ScanClose(src, offset, expression) == ScanClose(src, start, "")
        decreases |src| - offset
      {
        if end > offset && src[end - 1] == '\\' {
          EscapedCloseInContent(src, offset, expression);
          expression := expression + src[offset..end - 1] + closeToken;
          offset := end + |closeToken|;
          end := IndexOf(src, closeToken, offset);
        } else {
          ScanCloseStops(src, offset, expression);
          expression := expression + src[offset..end];
          return;
        }
      }
      ScanCloseStops(src, offset, expression);
    }

    /** One round of `parse` from `offset`, where `start` is the next open token: the round found, and the text it appends. */
    method ScanRound(src: string, offset: nat, start: int) returns (st: Step, out: string)
      requires Valid() && Resumable(src, offset)
      requires start == IndexOf(src, openToken, offset) && start != -1
      ensures st == StepAt(src, offset)
      ensures st.Literal? ==> offset < st.at && out == src[offset..st.at - 1] + openToken
      ensures st.Token? ==> offset <= st.at && out == src[offset..st.at] + handler(st.content)
      ensures st.Unclosed? ==> out == src[offset..]
    {
      StepAtAdvances(src, offset);
      if start > 0 && src[start - 1] == '\\' {
        st := Literal(start, start + |openToken|);
        out := src[offset..start - 1] + openToken;
      } else {
        st, out := TokenRound(src, offset, start);
      }
    }

    /** A round whose open token is not escaped: the close-token scan decides between a token and an unclosed one. */
    method TokenRound(src: string, offset: nat, start: int) returns (st: Step, out: string)
      requires Valid() && Resumable(src, offset)
      requires start == IndexOf(src, openToken, offset) && start != -1
      requires !(start > 0 && src[start - 1] == '\\')
      ensures st == StepAt(src, offset) && (st.Token? || st.Unclosed?)
      ensures st.Token? ==> offset <= st.at && out == src[offset..st.at] + handler(st.content)
      ensures st.Unclosed? ==> out == src[offset..]
    {
      IndexOfOccurs(src, openToken, offset);
      var expression, end, scanned := ScanForClose(src, start + |openToken|);
      StepAtUnescaped(src, offset, start, CloseScan(expression, end, scanned));
      if end == -1 {
        st := Unclosed;
        out := src[offset..];
      } else {
        st := Token(start, expression, end + |closeToken|);
        out := src[offset..start] + handler(expression);
      }
    }

    /**
     * One round of `parse` as the loop performs it: the text it appends,
     * the handler argument it records (none or one), and where the next
     * round starts.
     */
    method Round(src: string, offset: nat, start: int) returns (out: string, call: seq<string>, next: nat)
      requires Valid() && Resumable(src, offset)
      requires start == IndexOf(src, openToken, offset) && start != -1
      ensures offset < next && Resumable(src, next)
      ensures ParseFrom(src, offset).text == out + ParseFrom(src, next).text
      ensures ParseFrom(src, offset).calls == call + ParseFrom(src, next).calls
    {
      var st;
      st, out := ScanRound(src, offset, start);
      if st.Unclosed? {
        ParseFromEnd(src, offset);
        next := |src|;
        ParseFromEnd(src, next);
        call := [];
      } else if st.Literal? {
        ParseFromLiteral(src, offset);
        next := st.next;
        call := [];
      } else {
        ParseFromToken(src, offset);
        next := st.next;
        call := [st.content];
      }
    }

    /** The parser's scan: copies text, drops escaping backslashes, and hands every complete token to the handler. */
    method ParseText(text: Option<string>) returns (r: string, calls: seq<string>)
      requires Valid()
      ensures Parsed(r, calls) == Parse(text)
    {
      if text.None? || text.value == [] {
        return "", [];
      }
      var src := text.value;
      var start := IndexOf(src, openToken, 0);
      if start == -1 {
        ParseFromEnd(src, 0);
        return src, [];
      }
      var offset: nat := 0;
      var builder := "";
      calls := [];
      while start > -1
        invariant Resumable(src, offset)
        invariant start == IndexOf(src, openToken, offset)
        invariant builder + ParseFrom(src, offset).text == ParseFrom(src, 0).text
        invariant calls + ParseFrom(src, offset).calls == ParseFrom(src, 0).calls
        decreases |src| - offset
      {
        var out, call, next := Round(src, offset, start);
        AppendAssoc(builder, out, ParseFrom(src, next).text);
        AppendAssoc(calls, call, ParseFrom(src, next).calls);
        builder := builder + out;
        calls := calls + call;
        offset := next;
        start := IndexOf(src, openToken, offset);
      }
      ParseFromEnd(src, offset);
      if offset < |src| {
        builder := builder + src[offset..];
      }
      r := builder;
    }

    /** A text with no open token comes back unchanged and the handler is never called. */
    lemma {:induction false} NoTokenUnchanged(text: string)
      requires Valid()
      requires forall j :: !OccursAt(text, openToken, j)
      ensures Parse(Some(text)) == Parsed(text, [])
    {
      IndexOfAbsent(text, openToken, 0);
      ParseFromEnd(text, 0);
    }

    /** A null or empty text gives the empty string. */
    lemma {:induction false} EmptyGivesEmpty(text: Option<string>)
      requires Valid()
      requires text.None? || text == Some("")
      ensures Parse(text) == Parsed("", [])
    {
    }

    /** Without backslashes, a token's content is the text between the open and the first close token after it. */
    lemma {:induction false} ScanCloseWithoutEscapes(text: string, offset: nat)
      requires Valid() && offset <= |text|
      requires forall j :: 0 <= j < |text| ==> text[j] != '\\'
      ensures var sc := ScanClose(text, offset, "");
        sc.end == IndexOf(text, closeToken, offset) &&
        (sc.end != -1 ==> sc.expression == text[offset..sc.end])
    {
      var end := IndexOf(text, closeToken, offset);
      if end > offset {
        assert text[end - 1] != '\\';
      }
    }

    /** A token written back as it was, between the text before it and after it, restores the text. */
    lemma {:induction false} TokenPieces(text: string, offset: nat, start: nat, end: nat)
      requires offset <= start && OccursAt(text, openToken, start)
      requires start + |openToken| <= end && OccursAt(text, closeToken, end)
      ensures text[offset..start] + (openToken + text[start + |openToken|..end] + closeToken) + text[end + |closeToken|..] == text[offset..]
    {
      var body, next := start + |openToken|, end + |closeToken|;
      OccursAtSlice(text, openToken, start);
      OccursAtSlice(text, closeToken, end);
      var a, o, c, k, rest := text[offset..start], text[start..body], text[body..end], text[end..next], text[next..];
      SliceConcat(text, end, next, |text|);
      SliceConcat(text, body, end, |text|);
      SliceConcat(text, start, body, |text|);
      SliceConcat(text, offset, start, |text|);
      AppendAssoc(a, o + c + k, rest);
      AppendAssoc(o + c, k, rest);
      AppendAssoc(o, c, k + rest);
    }

    /** Without backslashes, a round finds no escaped token, and a token found is its open token, its content and its close token. */
    lemma {:induction false} EchoStep(text: string, offset: nat)
      requires Valid() && Resumable(text, offset)
      requires forall j :: 0 <= j < |text| ==> text[j] != '\\'
      ensures var st := StepAt(text, offset);
        && !st.Literal?
        && (st.Token? ==> offset <= st.at && st.at + |openToken| + |closeToken| <= st.next <= |text|)
        && (st.Token? ==> OccursAt(text, openToken, st.at) && OccursAt(text, closeToken, st.next - |closeToken|))
        && (st.Token? ==> st.content == text[st.at + |openToken|..st.next - |closeToken|])
    {
      var start := IndexOf(text, openToken, offset);
      if start != -1 {
        assert !(start > 0 && text[start - 1] == '\\');
        var body := start + |openToken|;
        var sc := ScanClose(text, body, "");
        StepAtUnescaped(text, offset, start, sc);
        if sc.end != -1 {
          ScanCloseWithoutEscapes(text, body);
          IndexOfOccurs(text, openToken, offset);
          ScanCloseOccurs(text, body, "");
        }
      }
    }

    /** When the handler writes every token back as it was, a text without backslashes is reproduced exactly. */
    lemma {:induction false} EchoHandlerRoundTrip(text: string, offset: nat)
      requires Valid() && offset <= |text|
      requires forall e :: handler(e) == openToken + e + closeToken
      requires forall j :: 0 <= j < |text| ==> text[j] != '\\'
      ensures Resumable(text, offset)
      ensures ParseFrom(text, offset).text == text[offset..]
      decreases |text| - offset
    {
      assert offset == 0 || offset == |text| || text[offset - 1] != '\\';
      EchoRound(text, offset);
      var st := StepAt(text, offset);
      if !st.Token? {
        ParseFromEnd(text, offset);
      } else {
        ParseFromToken(text, offset);
        EchoHandlerRoundTrip(text, st.next);
        JoinPieces(ParseFrom(text, offset).text, text[offset..st.at] + handler(st.content), ParseFrom(text, st.next).text, text[st.next..], text[offset..]);
      }
    }

    /** One round of the echo: no escaped token, and a token found is written back in place. */
    lemma {:induction false} EchoRound(text: string, offset: nat)
      requires Valid() && Resumable(text, offset)
      requires forall e :: handler(e) == openToken + e + closeToken
      requires forall j :: 0 <= j < |text| ==> text[j] != '\\'
      ensures var st := StepAt(text, offset);
        && !st.Literal?
        && (st.Token? ==> offset <= st.at < st.next <= |text|)
        && (st.Token? ==> text[offset..st.at] + handler(st.content) + text[st.next..] == text[offset..])
    {
      EchoStep(text, offset);
      var st := StepAt(text, offset);
      if st.Token? {
        EchoToken(text, offset, st.at, st.content, st.next);
      }
    }

    /** A token the handler writes back as it was leaves the text from `offset` unchanged. */
    lemma {:induction false} EchoToken(text: string, offset: nat, at: nat, content: string, next: nat)
      requires Valid() && forall e :: handler(e) == openToken + e + closeToken
      requires offset <= at && at + |openToken| + |closeToken| <= next <= |text|
      requires OccursAt(text, openToken, at) && OccursAt(text, closeToken, next - |closeToken|)
      requires content == text[at + |openToken|..next - |closeToken|]
      ensures text[offset..at] + handler(content) + text[next..] == text[offset..]
    {
      TokenPieces(text, offset, at, next - |closeToken|);
    }

    /** Equal pieces joined give equal texts. */
    lemma {:induction false} JoinPieces(whole: string, a: string, r: string, r': string, s: string)
      requires whole == a + r && r == r' && a + r' == s
      ensures whole == s
    {
    }

    /** An escaped open token is emitted without its backslash, and no handler call is made for it. */
    lemma {:induction false} EscapedOpenIsLiteral(text: string, offset: nat)
      requires Valid() && Resumable(text, offset)
      requires var start := IndexOf(text, openToken, offset); start > 0 && text[start - 1] == '\\'
      ensures var start := IndexOf(text, openToken, offset);
        var next := start + |openToken|;
        offset <= start - 1 && Resumable(text, next) &&
        ParseFrom(text, offset) == Parsed(text[offset..start - 1] + openToken + ParseFrom(text, next).text, ParseFrom(text, next).calls)
    {
      var start := IndexOf(text, openToken, offset);
      assert StepAt(text, offset) == Literal(start, start + |openToken|);
      ParseFromLiteral(text, offset);
    }

    /** An open token that is never closed leaves the rest of the text as it is, with no further handler calls. */
    lemma {:induction false} UnclosedTokenCopied(text: string, offset: nat)
      requires Valid() && Resumable(text, offset)
      requires var start := IndexOf(text, openToken, offset);
        start != -1 && !(start > 0 && text[start - 1] == '\\') &&
        IndexOf(text, closeToken, start + |openToken|) == -1
      ensures ParseFrom(text, offset) == Parsed(text[offset..], [])
    {
      var start := IndexOf(text, openToken, offset);
      IndexOfOccurs(text, openToken, offset);
      ScanCloseStops(text, start + |openToken|, "");
      StepAtUnescaped(text, offset, start, ScanClose(text, start + |openToken|, ""));
      assert StepAt(text, offset) == Unclosed;
      ParseFromEnd(text, offset);
    }

    /** Inside a token, a close token right after a backslash becomes part of the content, without the backslash. */
    lemma {:induction false} EscapedCloseInContent(text: string, offset: nat, expression: string)
      requires Valid() && offset <= |text|
      requires var end := IndexOf(text, closeToken, offset); end > offset && text[end - 1] == '\\'
      ensures var end := IndexOf(text, closeToken, offset);
        ScanClose(text, offset, expression) == ScanClose(text, end + |closeToken|, expression + text[offset..end - 1] + closeToken)
    {
    }

    /** The close-token scan stops at the first close token not preceded by a backslash, or finds none. */
    lemma {:induction false} ScanCloseStops(text: string, offset: nat, expression: string)
      requires Valid() && offset <= |text|
      ensures var end := IndexOf(text, closeToken, offset);
        && (end == -1 ==> ScanClose(text, offset, expression) == CloseScan(expression, -1, offset))
        && (end != -1 && !(end > offset && text[end - 1] == '\\') ==>
              ScanClose(text, offset, expression) == CloseScan(expression + text[offset..end], end, offset))
    {
    }

    /** The first complete token is handed to the handler first, with exactly its content, after the text before it. */
    lemma {:induction false} FirstTokenHandled(text: string, offset: nat)
      requires Valid() && Resumable(text, offset)
      requires forall j :: 0 <= j < |text| ==> text[j] != '\\'
      ensures var start := IndexOf(text, openToken, offset);
        var p := ParseFrom(text, offset);
        start != -1 && IndexOf(text, closeToken, start + |openToken|) != -1 ==>
          var end := IndexOf(text, closeToken, start + |openToken|);
          p.calls != [] && p.calls[0] == text[start + |openToken|..end] &&
          text[offset..start] + handler(p.calls[0]) <= p.text
    {
      var start := IndexOf(text, openToken, offset);
      if start != -1 && IndexOf(text, closeToken, start + |openToken|) != -1 {
        var body := start + |openToken|;
        if start > 0 {
          assert text[start - 1] != '\\';
        }
        var sc := ScanClose(text, body, "");
        ScanCloseWithoutEscapes(text, body);
        StepAtUnescaped(text, offset, start, sc);
        ParseFromToken(text, offset);
        var rest := ParseFrom(text, sc.end + |closeToken|);
        PrefixOfAppend(text[offset..start] + handler(sc.expression), rest.text);
      }
    }
  }
}

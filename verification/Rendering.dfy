/** The Markdown of a conversation, and what it does and does not depend on. */
module Rendering {
  import opened Basics
  import opened JsonValues
  import opened Conversation

  // ---------------------------------------------------------------- text

  /** The code points Unicode counts as white space. */
  predicate IsWhitespace(ch: char) {
    var p := ch as int;
    || 0x09 <= p <= 0x0D || p == 0x20 || p == 0x85 || p == 0xA0 || p == 0x1680 || 0x2000 <= p <= 0x200A
    || p == 0x2028 || p == 0x2029 || p == 0x202F || p == 0x205F || p == 0x3000
  }

  /** Nothing is left of the text after trimming. */
  predicate Blank(text: string) {
    forall i :: 0 <= i < |text| ==> IsWhitespace(text[i])
  }

  function TextParts(parts: seq<Json>): seq<string> {
    if parts == [] then []
    else TextParts(parts[..|parts| - 1]) + if Last(parts).String? then [Last(parts).s] else []
  }

  function Join(texts: seq<string>): string {
    if texts == [] then ""
    else if |texts| == 1 then texts[0]
    else Join(texts[..|texts| - 1]) + "\n" + Last(texts)
  }

  const PLACEHOLDER := "[non-text content]"

  function TextOf(msg: Message): string {
    var joined := if msg.parts.Some? then Join(TextParts(msg.parts.value)) else "";
    if joined == "" then PLACEHOLDER else joined
  }

  /** Texts are joined by single line breaks, in order; anything but a string has no text. */
  lemma JoinMeans(texts: seq<string>, last: string, parts: seq<Json>, part: Json)
    ensures Join([]) == "" && Join([last]) == last
    ensures texts != [] ==> Join(texts + [last]) == Join(texts) + "\n" + last
    ensures TextParts([]) == [] && TextParts(parts + [part]) == TextParts(parts) + if part.String? then [part.s] else []
  {
    assert (texts + [last])[..|texts|] == texts;
    assert (parts + [part])[..|parts|] == parts;
  }

  lemma {:induction false} JoinedIsEmpty(texts: seq<string>)
    ensures Join(texts) == "" <==> texts == [] || texts == [""]
  {
  }

  lemma BlankConcat(a: string, b: string)
    ensures Blank(a + b) <==> Blank(a) && Blank(b)
  {
    assert forall i :: 0 <= i < |a| ==> (a + b)[i] == a[i];
    assert forall i :: 0 <= i < |b| ==> (a + b)[|a| + i] == b[i];
    if Blank(a + b) {
      forall i | 0 <= i < |b| ensures IsWhitespace(b[i]) {
        assert IsWhitespace((a + b)[|a| + i]);
      }
    }
  }

  lemma {:induction false} JoinedIsBlank(texts: seq<string>)
    ensures Blank(Join(texts)) <==> forall i :: 0 <= i < |texts| ==> Blank(texts[i])
  {
    if |texts| > 1 {
      var before := texts[..|texts| - 1];
      JoinedIsBlank(before);
      BlankConcat(Join(before) + "\n", Last(texts));
      BlankConcat(Join(before), "\n");
      assert forall i :: 0 <= i < |texts| ==> texts[i] == if i < |before| then before[i] else Last(texts);
    }
  }

  /** The 25 code points. */
  lemma WhitespaceIs(ch: char)
    ensures IsWhitespace(ch) <==>
              ch as int in {0x09, 0x0A, 0x0B, 0x0C, 0x0D, 0x20, 0x85, 0xA0, 0x1680, 0x2000, 0x2001, 0x2002, 0x2003,
                            0x2004, 0x2005, 0x2006, 0x2007, 0x2008, 0x2009, 0x200A, 0x2028, 0x2029, 0x202F,
                            0x205F, 0x3000}
  {
  }

  // ---------------------------------------------------------------- blocks

  function RoleName(role: string): string {
    match role
    case "user" => "You"
    case "assistant" => "ChatGPT"
    case "system" => "System"
    case "tool" => "Tool"
    case _ => role
  }

  lemma RoleNames(role: string)
    ensures RoleName("user") == "You" && RoleName("assistant") == "ChatGPT"
    ensures RoleName("system") == "System" && RoleName("tool") == "Tool"
    ensures role !in {"user", "assistant", "system", "tool"} ==> RoleName(role) == role
  {
    assert |"user"| == |"tool"| == 4 && "user"[0] == 'u' && "tool"[0] == 't';
    assert |"assistant"| == 9 && |"system"| == 6;
  }

  /** A message gets a block unless it was cut off or its text is blank. */
  predicate Eligible(msg: Message) {
    msg.status != Some("finished_partially") && !Blank(TextOf(msg))
  }

  /**
   A blank message is one whose text parts are all blank, except that no text at all, or one empty part, is not
   blank.
   */
  lemma EligibleMeans(msg: Message)
    ensures var texts := if msg.parts.Some? then TextParts(msg.parts.value) else [];
            Eligible(msg) <==>
              && msg.status != Some("finished_partially")
              && (texts == [] || texts == [""] || exists i :: 0 <= i < |texts| && !Blank(texts[i]))
  {
    var texts := if msg.parts.Some? then TextParts(msg.parts.value) else [];
    JoinedIsEmpty(texts);
    JoinedIsBlank(texts);
    assert PLACEHOLDER[0] == '[' && !IsWhitespace('[');
  }

  /** `fmt` is the formatting of timestamps. */
  function Block(fmt: Double -> string, msg: Message): string {
    (if msg.createTime.Some? then "<!-- " + fmt(msg.createTime.value) + " | " + msg.id + " -->\n" else "")
    + "**" + RoleName(msg.role) + ":**\n\n" + TextOf(msg) + "\n\n---\n\n"
  }

  function Header(fmt: Double -> string, conv: Detail): string {
    "# " + (if conv.title.Some? then conv.title.value else "Untitled") + "\n\n"
    + (if conv.createTime.Some? then "*Created: " + fmt(conv.createTime.value) + "*\n\n" else "")
    + (if conv.updateTime.Some? then "*Updated: " + fmt(conv.updateTime.value) + "*\n\n" else "")
  }

  /** The messages that get a block, in the order of the given messages. */
  function Printed(messages: seq<Option<Message>>): seq<Message> {
    if messages == [] then []
    else
      Printed(messages[..|messages| - 1])
      + if Last(messages).Some? && Eligible(Last(messages).value) then [Last(messages).value] else []
  }

  function Blocks(fmt: Double -> string, printed: seq<Message>): string {
    if printed == [] then "" else Blocks(fmt, printed[..|printed| - 1]) + Block(fmt, Last(printed))
  }

  function Messages(m: Mapping, ids: seq<string>): (r: seq<Option<Message>>)
    requires forall i :: 0 <= i < |ids| ==> ids[i] in m
    ensures |r| == |ids| && forall i :: 0 <= i < |ids| ==> r[i] == m[ids[i]].message
  {
    if ids == [] then [] else Messages(m, ids[..|ids| - 1]) + [m[Last(ids)].message]
  }

  /** Rendering ends unless there are messages to walk to and the walk goes round in a circle. */
  ghost predicate Renders(conv: Detail) {
    conv.mapping.Some? && conv.currentNode.Some? ==> Ends(conv.mapping.value, conv.currentNode.value)
  }

  /** `md` is the rendering: the header, and a block for each eligible message of the root-to-current chain. */
  ghost predicate IsMarkdown(fmt: Double -> string, conv: Detail, md: string) {
    if conv.mapping.None? || conv.currentNode.None? then md == Header(fmt, conv) + "_No messages._\n"
    else
      exists ids :: RootChain(conv.mapping.value, ids, conv.currentNode.value)
                    && md == Header(fmt, conv) + Blocks(fmt, Printed(Messages(conv.mapping.value, ids)))
  }

  lemma MarkdownIsUnique(fmt: Double -> string, conv: Detail, a: string, b: string)
    requires IsMarkdown(fmt, conv, a) && IsMarkdown(fmt, conv, b)
    ensures a == b
  {
    if conv.mapping.Some? && conv.currentNode.Some? {
      var m, current := conv.mapping.value, conv.currentNode.value;
      var x :| RootChain(m, x, current) && a == Header(fmt, conv) + Blocks(fmt, Printed(Messages(m, x)));
      var y :| RootChain(m, y, current) && b == Header(fmt, conv) + Blocks(fmt, Printed(Messages(m, y)));
      ChainIsUnique(m, x, y, current);
    }
  }

  // ---------------------------------------------------------------- to_markdown

  method PartsText(parts: Option<seq<Json>>) returns (text: string)
    ensures text == var joined := if parts.Some? then Join(TextParts(parts.value)) else "";
                    if joined == "" then "[non-text content]" else joined
  {
    var texts: seq<string> := [];
    if parts.Some? {
      for k := 0 to |parts.value|
        invariant texts == TextParts(parts.value[..k])
      {
        assert parts.value[..k + 1][..k] == parts.value[..k];
        var text := parts.value[k].AsString();
        texts := texts + if text.Some? then [text.value] else [];
      }
      assert parts.value[..|parts.value|] == parts.value;
    }
    text := Join(texts);
    if text == "" {
      text := PLACEHOLDER;
    }
  }

  /** What one node adds: nothing, or its block. */
  function Shown(fmt: Double -> string, message: Option<Message>): string {
    if message.Some? && Eligible(message.value) then Block(fmt, message.value) else ""
  }

  lemma ConcatAssoc(a: string, b: string, d: string)
    ensures (a + b) + d == a + (b + d)
  {
  }

  lemma PrintedSnoc(messages: seq<Option<Message>>, last: Option<Message>)
    ensures Printed(messages + [last])
            == Printed(messages) + if last.Some? && Eligible(last.value) then [last.value] else []
  {
    assert (messages + [last])[..|messages|] == messages;
  }

  lemma BlocksSnoc(fmt: Double -> string, printed: seq<Message>, last: Message)
    ensures Blocks(fmt, printed + [last]) == Blocks(fmt, printed) + Block(fmt, last)
  {
    assert (printed + [last])[..|printed|] == printed;
  }

  lemma PrintNext(fmt: Double -> string, messages: seq<Option<Message>>, k: nat)
    requires k < |messages|
    ensures Blocks(fmt, Printed(messages[..k + 1])) == Blocks(fmt, Printed(messages[..k])) + Shown(fmt, messages[k])
  {
    var before, last := messages[..k], messages[k];
    assert messages[..k + 1] == before + [last];
    PrintedSnoc(before, last);
    if last.Some? && Eligible(last.value) {
      BlocksSnoc(fmt, Printed(before), last.value);
    } else {
      assert Printed(before + [last]) == Printed(before);
    }
  }

  method RenderHeader(fmt: Double -> string, conv: Detail) returns (md: string)
    ensures md == Header(fmt, conv)
  {
    md := "# " + (if conv.title.Some? then conv.title.value else "Untitled") + "\n\n";
    if conv.createTime.Some? {
      md := md + ("*Created: " + fmt(conv.createTime.value) + "*\n\n");
    }
    if conv.updateTime.Some? {
      md := md + ("*Updated: " + fmt(conv.updateTime.value) + "*\n\n");
    }
  }

  method RenderNode(fmt: Double -> string, node: Node) returns (block: string)
    ensures block == Shown(fmt, node.message)
  {
    block := "";
    if node.message.None? || node.message.value.status == Some("finished_partially") {
      return;
    }
    var msg := node.message.value;
    var text := PartsText(msg.parts);
    if Blank(text) {
      return;
    }
    if msg.createTime.Some? {
      block := "<!-- " + fmt(msg.createTime.value) + " | " + msg.id + " -->\n";
    }
    block := block + "**" + RoleName(msg.role) + ":**\n\n" + text + "\n\n---\n\n";
  }

  method RenderPath(fmt: Double -> string, path: seq<Node>, header: string, ghost messages: seq<Option<Message>>)
    returns (md: string)
    requires |messages| == |path| && forall i :: 0 <= i < |path| ==> path[i].message == messages[i]
    ensures md == header + Blocks(fmt, Printed(messages))
  {
    md := header;
    for k := 0 to |path|
      invariant md == header + Blocks(fmt, Printed(messages[..k]))
    {
      PrintNext(fmt, messages, k);
      ConcatAssoc(header, Blocks(fmt, Printed(messages[..k])), Shown(fmt, messages[k]));
      var block := RenderNode(fmt, path[k]);
      md := md + block;
    }
    assert messages[..|path|] == messages;
  }

  /** `to_markdown`. */
  method ToMarkdown(fmt: Double -> string, conv: Detail) returns (md: string)
    requires Renders(conv)
    ensures IsMarkdown(fmt, conv, md)
  {
    md := RenderHeader(fmt, conv);
    if conv.mapping.None? || conv.currentNode.None? {
      md := md + "_No messages._\n";
    } else {
      var path := WalkToCurrent(conv.mapping.value, conv.currentNode.value);
      ghost var ids :| RootChain(conv.mapping.value, ids, conv.currentNode.value)
        && NodesAt(conv.mapping.value, ids, path);
      md := RenderPath(fmt, path, md, Messages(conv.mapping.value, ids));
    }
  }

  // ---------------------------------------------------------------- a conversation in print

  lemma OneTextPart(text: string)
    ensures Join(TextParts([String(text)])) == text
  {
    assert [String(text)][..0] == [];
    assert TextParts([String(text)]) == [text];
  }

  /** A message that came with one text. */
  function Said(id: string, role: string, time: Option<Double>, text: string): Message {
    Message(id, role, time, Some([String(text)]), None)
  }

  /** A question and its answer, hanging from a root node without a message. */
  function Exchange(title: string, created: Double, updated: Double, asked: Double, question: string,
                    answer: string): Detail {
    Detail("c", Some(title), Some(created), Some(updated),
           Some(map["r" := Node("r", None, None, ["q"]),
                    "q" := Node("q", Some(Said("m1", "user", Some(asked), question)), Some("r"), ["a"]),
                    "a" := Node("a", Some(Said("m2", "assistant", None, answer)), Some("q"), [])]),
           Some("a"))
  }

  /** What such a conversation looks like, character by character. */
  lemma ExchangeIsRendered(fmt: Double -> string, title: string, created: Double, updated: Double, asked: Double,
                           question: string, answer: string, md: string)
    requires !Blank(question) && !Blank(answer)
    requires IsMarkdown(fmt, Exchange(title, created, updated, asked, question, answer), md)
    ensures var header := "# " + title + "\n\n" + ("*Created: " + fmt(created) + "*\n\n")
                          + ("*Updated: " + fmt(updated) + "*\n\n");
            var first := "<!-- " + fmt(asked) + " | m1 -->\n" + "**You:**\n\n" + question + "\n\n---\n\n";
            var second := "**ChatGPT:**\n\n" + answer + "\n\n---\n\n";
            md == header + (first + second)
  {
    var conv := Exchange(title, created, updated, asked, question, answer);
    var x, y := Said("m1", "user", Some(asked), question), Said("m2", "assistant", None, answer);
    PrintedExchange(fmt, conv, Some(x), Some(y), md);
    QuestionBlock(fmt, asked, question);
    AnswerBlock(fmt, answer);
    TwoPrinted(x, y);
    TwoBlocks(fmt, x, y);
  }

  /** And a conversation without title and times that has no messages, or no current one. */
  lemma NothingIsRendered(fmt: Double -> string, id: string, mapping: Option<Mapping>, current: Option<string>,
                          md: string)
    requires mapping.None? || current.None?
    requires IsMarkdown(fmt, Detail(id, None, None, None, mapping, current), md)
    ensures md == "# Untitled\n\n_No messages._\n"
  {
    var conv := Detail(id, None, None, None, mapping, current);
    assert Header(fmt, conv) == "# Untitled\n\n";
  }

  lemma PrintedExchange(fmt: Double -> string, conv: Detail, x: Option<Message>, y: Option<Message>, md: string)
    requires conv.mapping == Some(map["r" := Node("r", None, None, ["q"]), "q" := Node("q", x, Some("r"), ["a"]),
                                      "a" := Node("a", y, Some("q"), [])])
    requires conv.currentNode == Some("a") && IsMarkdown(fmt, conv, md)
    ensures md == Header(fmt, conv) + Blocks(fmt, Printed([None, x, y]))
  {
    var m := conv.mapping.value;
    var ids :| RootChain(m, ids, "a") && md == Header(fmt, conv) + Blocks(fmt, Printed(Messages(m, ids)));
    ThreeInARow(m, x, y);
    ChainIsUnique(m, ids, ["r", "q", "a"], "a");
  }

  lemma ThreeInARow(m: Mapping, x: Option<Message>, y: Option<Message>)
    requires m == map["r" := Node("r", None, None, ["q"]), "q" := Node("q", x, Some("r"), ["a"]),
                      "a" := Node("a", y, Some("q"), [])]
    ensures RootChain(m, ["r", "q", "a"], "a") && Messages(m, ["r", "q", "a"]) == [None, x, y]
  {
    assert "r"[0] == 'r' && "q"[0] == 'q' && "a"[0] == 'a';
    var ids := ["r", "q", "a"];
    assert Last(ids) == "a" && forall i :: 0 <= i < 3 ==> ids[i] in m;
  }

  lemma QuestionBlock(fmt: Double -> string, asked: Double, question: string)
    requires !Blank(question)
    ensures Eligible(Said("m1", "user", Some(asked), question))
    ensures Block(fmt, Said("m1", "user", Some(asked), question))
            == "<!-- " + fmt(asked) + " | m1 -->\n" + "**You:**\n\n" + question + "\n\n---\n\n"
  {
    OneTextPart(question);
  }

  lemma AnswerBlock(fmt: Double -> string, answer: string)
    requires !Blank(answer)
    ensures Eligible(Said("m2", "assistant", None, answer))
    ensures Block(fmt, Said("m2", "assistant", None, answer)) == "**ChatGPT:**\n\n" + answer + "\n\n---\n\n"
  {
    OneTextPart(answer);
  }

  lemma PrintedSkips(messages: seq<Option<Message>>, last: Option<Message>)
    requires last.None?
    ensures Printed(messages + [last]) == Printed(messages)
  {
    PrintedSnoc(messages, last);
  }

  lemma PrintedTakes(messages: seq<Option<Message>>, last: Message)
    requires Eligible(last)
    ensures Printed(messages + [Some(last)]) == Printed(messages) + [last]
  {
    PrintedSnoc(messages, Some(last));
  }

  lemma TwoPrinted(x: Message, y: Message)
    requires Eligible(x) && Eligible(y)
    ensures Printed([None, Some(x), Some(y)]) == [x, y]
  {
    var root: seq<Option<Message>> := [None];
    assert root == [] + [None] && [None, Some(x), Some(y)] == root + [Some(x)] + [Some(y)];
    PrintedSkips([], None);
    PrintedTakes(root, x);
    PrintedTakes(root + [Some(x)], y);
  }

  lemma TwoBlocks(fmt: Double -> string, x: Message, y: Message)
    ensures Blocks(fmt, [x, y]) == Block(fmt, x) + Block(fmt, y)
  {
    assert [x, y][..1] == [x] && [x][..0] == [] && Blocks(fmt, []) == "";
    assert Blocks(fmt, [x]) == "" + Block(fmt, x) == Block(fmt, x);
  }

  // ---------------------------------------------------------------- locality

  /** The two maps agree on whether a node is there, on its message and on its parent; ids and children are free. */
  ghost predicate AgreeAt(m: Mapping, n: Mapping, id: string) {
    && (id in m <==> id in n)
    && (id in m ==> m[id].message == n[id].message && m[id].parent == n[id].parent)
  }

  /** The two maps agree at the current node and at whatever is linked to from a visited one. */
  ghost predicate AgreeOnAncestors(m: Mapping, n: Mapping, current: string) {
    && AgreeAt(m, n, current)
    && (forall k: nat :: Visit(m, current, k).Some? && m[Visit(m, current, k).value].parent.Some? ==>
          AgreeAt(m, n, m[Visit(m, current, k).value].parent.value))
  }

  lemma {:induction false} SameVisits(m: Mapping, n: Mapping, current: string, k: nat)
    requires AgreeOnAncestors(m, n, current)
    ensures Visit(n, current, k) == Visit(m, current, k)
    ensures Visit(m, current, k).Some? ==> AgreeAt(m, n, Visit(m, current, k).value)
  {
    if k > 0 {
      SameVisits(m, n, current, k - 1);
    }
  }

  lemma SameChain(m: Mapping, n: Mapping, current: string, ids: seq<string>)
    requires AgreeOnAncestors(m, n, current) && RootChain(m, ids, current)
    ensures RootChain(n, ids, current) && Messages(m, ids) == Messages(n, ids)
  {
    forall i | 0 <= i < |ids| ensures AgreeAt(m, n, ids[i]) {
      ChainIsVisits(m, ids, current, |ids| - 1 - i);
      SameVisits(m, n, current, |ids| - 1 - i);
    }
    if ids != [] {
      ChainIsVisits(m, ids, current, |ids| - 1);
    }
  }

  ghost predicate SameHeader(a: Detail, b: Detail) {
    a.title == b.title && a.createTime == b.createTime && a.updateTime == b.updateTime
  }

  /**
   Rendering depends on the header, the current node, and the messages and parent links of its ancestors, and on
   nothing else: not on node ids, child lists, branches off the path, or the conversation's own id.
   */
  lemma RenderingIsLocal(fmt: Double -> string, a: Detail, b: Detail, md: string)
    requires SameHeader(a, b) && a.currentNode == b.currentNode && a.mapping.Some? == b.mapping.Some?
    requires a.mapping.Some? && a.currentNode.Some? ==>
              AgreeOnAncestors(a.mapping.value, b.mapping.value, a.currentNode.value)
    ensures Renders(a) <==> Renders(b)
    ensures IsMarkdown(fmt, a, md) ==> IsMarkdown(fmt, b, md)
  {
    if a.mapping.Some? && a.currentNode.Some? {
      var m, n, current := a.mapping.value, b.mapping.value, a.currentNode.value;
      forall k: nat ensures Visit(n, current, k) == Visit(m, current, k) {
        SameVisits(m, n, current, k);
      }
      if IsMarkdown(fmt, a, md) {
        var ids :| RootChain(m, ids, current) && md == Header(fmt, a) + Blocks(fmt, Printed(Messages(m, ids)));
        SameChain(m, n, current, ids);
      }
    }
  }
}

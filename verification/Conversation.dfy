/** The conversation projection of `gateway/conversation.go`: messages become display chunks of
    bounded size, cut between code points, and chunks are read in pages. */
module Conversation {
  import opened Outcome
  import opened Text
  import opened Utf8

  const CHUNK_BYTES: nat := 0x10_0000
  const PAGE_BYTES: nat := 0x40_0000
  const PREVIEW_BYTES: nat := 0x1000

  const ELLIPSIS: seq<byte> := [0xE2, 0x80, 0xA6]

  datatype Role = User | Assistant | Tool | Other

  datatype ToolCall = ToolCall(id: string, name: string)

  datatype Message = Message(role: Role, content: seq<byte>, toolCalls: seq<ToolCall>, toolCallId: string, isError: bool)

  /** One display item. */
  datatype Item = Item(role: Role, content: seq<byte>, toolCalls: seq<ToolCall>, toolCallId: string, isError: bool, continuation: bool)

  // ---- where to cut ------------------------------------------------------

  /** The last rune start at or before `b`, or 0. */
  function LastStart(content: seq<byte>, b: nat): (r: nat)
    requires b < |content|
    ensures r <= b && (r == 0 || RuneStart(content[r])) && forall j :: r < j <= b ==> !RuneStart(content[j])
  {
    if b > 0 && !RuneStart(content[b]) then LastStart(content, b - 1) else b
  }

  function Boundary(content: seq<byte>, limit: nat): nat {
    if |content| <= limit then |content|
    else if LastStart(content, limit) == 0 then DecodeSize(content)
    else LastStart(content, limit)
  }

  method ChunkBoundary(content: seq<byte>, limit: nat) returns (r: nat)
    ensures r == Boundary(content, limit)
  {
    if |content| <= limit { return |content|; }
    var boundary := limit;
    while boundary > 0 && !RuneStart(content[boundary])
      invariant 0 <= boundary <= limit && LastStart(content, boundary) == LastStart(content, limit)
    {
      boundary := boundary - 1;
    }
    if boundary == 0 { return DecodeSize(content); }
    return boundary;
  }

  /** A limit of at least one code point is kept, and progress is made. */
  lemma BoundaryFits(content: seq<byte>, limit: nat)
    requires content != [] && limit >= 4
    ensures 0 < Boundary(content, limit) <= |content| && Boundary(content, limit) <= limit
  {}

  /** Valid text is cut between code points, and as late as the limit allows. */
  lemma BoundaryKeepsRunes(content: seq<byte>, limit: nat)
    requires ValidUtf8(content) && content != [] && limit >= 4
    ensures var r := Boundary(content, limit);
            ValidUtf8(content[..r]) && ValidUtf8(content[r..])
            && forall j :: r < j <= limit && j < |content| ==> !RuneStart(content[j])
  {
    BoundaryFits(content, limit);
    var r := Boundary(content, limit);
    if r < |content| && LastStart(content, limit) == 0 {
      assert r == RuneLength(content);
      assert !RuneStart(content[r]);
      NextStarts(content);
    }
    CutAtStart(content, r);
  }

  /** In valid text the byte after a code point starts the next one. */
  lemma NextStarts(content: seq<byte>)
    requires ValidUtf8(content) && content != []
    ensures RuneLength(content) < |content| ==> RuneStart(content[RuneLength(content)])
  {}

  // ---- chunks ------------------------------------------------------------

  /** `conversationContent`: long tool output is shown as a preview. */
  function Content(m: Message): seq<byte> {
    if m.role != Tool || |m.content| <= PREVIEW_BYTES then m.content
    else m.content[..Boundary(m.content, PREVIEW_BYTES)] + ELLIPSIS
  }

  predicate Displayed(m: Message) {
    m.role != Other && (Content(m) != [] || m.toolCalls != [] || m.role == Tool)
  }

  /** The whole message as one item: what the chunks stand for. */
  function Shown(m: Message): Item { Item(m.role, Content(m), m.toolCalls, m.toolCallId, m.isError, false) }

  function Shows(messages: seq<Message>): seq<Item> {
    if messages == [] then [] else
      var last := messages[|messages| - 1];
      Shows(messages[..|messages| - 1]) + (if Displayed(last) then [Shown(last)] else [])
  }

  /** The first piece of a message carries its tool data, the others are continuations. */
  function Piece(m: Message, content: seq<byte>, first: bool): Item {
    if first then Shown(m).(content := content) else Item(m.role, content, [], "", false, true)
  }

  /** The items that show the content. */
  function Cut(m: Message, content: seq<byte>, first: bool): seq<Item>
    decreases |content|
  {
    if content == [] then [] else
      var r := Boundary(content, CHUNK_BYTES);
      BoundaryFits(content, CHUNK_BYTES);
      [Piece(m, content[..r], first)] + Cut(m, content[r..], false)
  }

  lemma CutOne(m: Message, content: seq<byte>, first: bool)
    requires content != []
    ensures var r := Boundary(content, CHUNK_BYTES);
            0 < r <= |content| && r <= CHUNK_BYTES && content == content[..r] + content[r..]
            && Cut(m, content, first) == [Piece(m, content[..r], first)] + Cut(m, content[r..], false)
  {}

  function MessageChunks(m: Message): seq<Item> {
    if !Displayed(m) then [] else if Content(m) == [] then [Shown(m)] else Cut(m, Content(m), true)
  }

  function Chunks(messages: seq<Message>): seq<Item> {
    if messages == [] then [] else Chunks(messages[..|messages| - 1]) + MessageChunks(messages[|messages| - 1])
  }

  method CutMessage(m: Message) returns (items: seq<Item>)
    requires Content(m) != []
    ensures items == Cut(m, Content(m), true)
  {
    hide Cut, Boundary, Piece, Content;
    items := [];
    var content := Content(m);
    var continuation := false;
    while content != []
      invariant items + Cut(m, content, !continuation) == Cut(m, Content(m), true)
      decreases |content|
    {
      var split := ChunkBoundary(content, CHUNK_BYTES);
      CutNext(m, items, content, !continuation);
      var item := Item(m.role, content[..split], [], "", false, continuation);
      if !continuation {
        item := item.(toolCalls := m.toolCalls, toolCallId := m.toolCallId, isError := m.isError);
      }
      IsPiece(m, content[..split], !continuation, item);
      items := items + [item];
      content := content[split..];
      continuation := true;
    }
    CutNothing(m, items, !continuation);
  }

  lemma CutNothing(m: Message, items: seq<Item>, first: bool)
    ensures items + Cut(m, [], first) == items
  {}

  lemma IsPiece(m: Message, content: seq<byte>, first: bool, item: Item)
    requires item == if first then Item(m.role, content, m.toolCalls, m.toolCallId, m.isError, false)
                     else Item(m.role, content, [], "", false, true)
    ensures item == Piece(m, content, first)
  {}

  lemma CutNext(m: Message, items: seq<Item>, content: seq<byte>, first: bool)
    requires content != []
    ensures var r := Boundary(content, CHUNK_BYTES);
            0 < r <= |content| && items + Cut(m, content, first) == (items + [Piece(m, content[..r], first)]) + Cut(m, content[r..], false)
  {}

  /** `conversationChunks`. */
  method ConversationChunks(messages: seq<Message>) returns (result: seq<Item>)
    ensures result == Chunks(messages)
  {
    hide Content, Cut;
    result := [];
    for k := 0 to |messages|
      invariant result == Chunks(messages[..k])
    {
      var m := messages[k];
      assert messages[..k + 1][..k] == messages[..k];
      if m.role == Other { continue; }
      if Content(m) == [] {
        if m.toolCalls == [] && m.role != Tool { continue; }
        result := result + [Item(m.role, [], m.toolCalls, m.toolCallId, m.isError, false)];
        continue;
      }
      var items := CutMessage(m);
      result := result + items;
    }
    assert messages[..|messages|] == messages;
  }

  // ---- nothing is lost ---------------------------------------------------

  /** How a reader puts continuations back: each extends the item before it. */
  function Extend(items: seq<Item>, next: Item): seq<Item> {
    if next.continuation && items != [] then
      var last := items[|items| - 1];
      items[..|items| - 1] + [last.(content := last.content + next.content)]
    else items + [next]
  }

  function Merge(onto: seq<Item>, items: seq<Item>): seq<Item>
    decreases |items|
  {
    if items == [] then onto else Merge(Extend(onto, items[0]), items[1..])
  }

  lemma {:induction false} MergeConcat(onto: seq<Item>, a: seq<Item>, b: seq<Item>)
    ensures Merge(onto, a + b) == Merge(Merge(onto, a), b)
    decreases |a|
  {
    if a == [] {
      assert a + b == b;
    } else {
      assert (a + b)[1..] == a[1..] + b;
      MergeConcat(Extend(onto, a[0]), a[1..], b);
    }
  }

  lemma MergeOne(onto: seq<Item>, item: Item, items: seq<Item>)
    ensures Merge(onto, [item] + items) == Merge(Extend(onto, item), items)
  {}

  lemma ExtendPiece(onto: seq<Item>, open: Item, m: Message, piece: seq<byte>)
    ensures Extend(onto + [open], Piece(m, piece, false)) == onto + [open.(content := open.content + piece)]
  {}

  lemma MergeDone(onto: seq<Item>, open: Item, m: Message)
    ensures Merge(onto + [open], Cut(m, [], false)) == onto + [open.(content := open.content + [])]
  {
    assert open.content + [] == open.content;
  }

  lemma {:induction false} MergeRest(onto: seq<Item>, open: Item, m: Message, content: seq<byte>)
    ensures Merge(onto + [open], Cut(m, content, false)) == onto + [open.(content := open.content + content)]
    decreases |content|
  {
    hide *;
    if content == [] {
      MergeDone(onto, open, m);
    } else {
      CutOne(m, content, false);
      var r := Boundary(content, CHUNK_BYTES);
      var wider := open.(content := open.content + content[..r]);
      MergeOne(onto + [open], Piece(m, content[..r], false), Cut(m, content[r..], false));
      ExtendPiece(onto, open, m, content[..r]);
      MergeRest(onto, wider, m, content[r..]);
      assert wider.content + content[r..] == open.content + content;
    }
  }

  lemma MergeMessage(onto: seq<Item>, m: Message)
    ensures Merge(onto, MessageChunks(m)) == onto + (if Displayed(m) then [Shown(m)] else [])
  {
    var content := Content(m);
    if Displayed(m) && content != [] {
      CutOne(m, content, true);
      hide Boundary, Cut, Merge, Content;
      var r := Boundary(content, CHUNK_BYTES);
      var first := Piece(m, content[..r], true);
      MergeOne(onto, first, Cut(m, content[r..], false));
      assert Extend(onto, first) == onto + [first];
      MergeRest(onto, first, m, content[r..]);
    }
  }

  /** Putting continuations back yields every displayed message, whole and in order. */
  lemma {:induction false} ChunksAreLossless(messages: seq<Message>)
    ensures Merge([], Chunks(messages)) == Shows(messages)
  {
    if messages != [] {
      hide MessageChunks, Displayed, Shown;
      var init, last := messages[..|messages| - 1], messages[|messages| - 1];
      ChunksAreLossless(init);
      MergeConcat([], Chunks(init), MessageChunks(last));
      MergeMessage(Shows(init), last);
    }
  }

  // ---- what is shown --------------------------------------------------------

  /** Users and assistants are shown when they say something or call a tool, tool results always, and
      nobody else. */
  lemma DisplayedByRole(m: Message)
    ensures m.role == User || m.role == Assistant ==> (Displayed(m) <==> m.content != [] || m.toolCalls != [])
    ensures m.role == Tool ==> Displayed(m)
    ensures m.role == Other ==> !Displayed(m)
  {}

  /** Content is shown whole, except that tool output longer than 4096 bytes is cut there, at the last
      rune start, and marked. */
  lemma ContentIsShown(m: Message)
    ensures m.role != Tool || |m.content| <= 4096 ==> Content(m) == m.content
    ensures m.role == Tool && |m.content| > 4096 ==>
              exists r :: 0 < r <= 4096 && Content(m) == m.content[..r] + [0xE2, 0x80, 0xA6]
                          && (ValidUtf8(m.content) ==> forall j :: r < j <= 4096 ==> !RuneStart(m.content[j]))
  {
    if m.role == Tool && |m.content| > 4096 {
      BoundaryFits(m.content, PREVIEW_BYTES);
      if ValidUtf8(m.content) { BoundaryKeepsRunes(m.content, PREVIEW_BYTES); }
      hide ValidUtf8, Boundary;
      var r := Boundary(m.content, PREVIEW_BYTES);
      assert Content(m) == m.content[..r] + [0xE2, 0x80, 0xA6];
    }
  }

  lemma ShownFields(m: Message)
    ensures var item := Shown(m);
            item.role == m.role && item.content == Content(m) && item.toolCalls == m.toolCalls && item.toolCallId == m.toolCallId
            && item.isError == m.isError && !item.continuation
  {}

  /** Messages are shown in order: one more displayed message is one more item at the end. */
  lemma ShowsInOrder(messages: seq<Message>, m: Message)
    ensures Shows(messages + [m]) == if Displayed(m) then Shows(messages) + [Shown(m)] else Shows(messages)
  {
    hide Displayed, Shown;
    assert (messages + [m])[..|messages|] == messages;
  }

  // ---- every chunk is well formed ----------------------------------------

  predicate Fine(item: Item, m: Message) {
    && item.role == m.role && |item.content| <= 0x10_0000
    && (Content(m) != [] ==> item.content != [])
    && (ValidUtf8(m.content) ==> ValidUtf8(item.content))
    && (item.continuation ==> item.toolCalls == [] && item.toolCallId == "" && !item.isError)
  }

  lemma EllipsisIsValid()
    ensures ValidUtf8(ELLIPSIS)
  {}

  lemma ContentIsValid(m: Message)
    requires ValidUtf8(m.content)
    ensures ValidUtf8(Content(m))
    ensures m.role == Tool ==> |Content(m)| <= PREVIEW_BYTES + 3
  {
    if m.role == Tool && |m.content| > PREVIEW_BYTES {
      BoundaryFits(m.content, PREVIEW_BYTES);
      BoundaryKeepsRunes(m.content, PREVIEW_BYTES);
      hide Boundary, ValidUtf8;
      EllipsisIsValid();
      ValidConcat(m.content[..Boundary(m.content, PREVIEW_BYTES)], ELLIPSIS);
    }
  }

  lemma PieceIsFine(m: Message, content: seq<byte>, first: bool)
    requires 0 < |content| <= CHUNK_BYTES && (ValidUtf8(m.content) ==> ValidUtf8(content))
    ensures Fine(Piece(m, content, first), m)
  {}

  lemma {:induction false} CutIsFine(m: Message, content: seq<byte>, first: bool, i: nat)
    requires i < |Cut(m, content, first)| && (ValidUtf8(m.content) ==> ValidUtf8(content))
    ensures Fine(Cut(m, content, first)[i], m)
    ensures Cut(m, content, first)[i].continuation <==> !(first && i == 0)
    decreases |content|
  {
    hide ValidUtf8, Boundary, Fine;
    var r := Boundary(content, CHUNK_BYTES);
    CutOne(m, content, first);
    if ValidUtf8(m.content) { BoundaryKeepsRunes(content, CHUNK_BYTES); }
    PieceIsFine(m, content[..r], first);
    hide Cut;
    if i > 0 { CutIsFine(m, content[r..], false, i - 1); }
  }

  /** Every chunk of a message is within the limit, valid where the message is, non-empty where
      the message shows any content, and only the first carries the message's tool data. */
  lemma MessageChunksAreFine(m: Message, i: nat)
    requires i < |MessageChunks(m)|
    ensures Fine(MessageChunks(m)[i], m) && (MessageChunks(m)[i].continuation <==> i > 0)
  {
    if ValidUtf8(m.content) { ContentIsValid(m); }
    hide ValidUtf8;
    if Content(m) != [] { CutIsFine(m, Content(m), true, i); } else { assert ValidUtf8(Content(m)) by { EmptyIsValid(); } }
  }

  lemma EmptyIsValid()
    ensures ValidUtf8([])
  {}

  // ---- pages -------------------------------------------------------------

  type Size = Item -> nat

  datatype Page = Page(items: seq<Item>, next: nat)

  /** `normalizeConversationQuery`. */
  function NormalLimit(limit: int): Option<nat> {
    var l := if limit == 0 then 100 else limit;
    if l < 1 || l > 1000 then None else Some(l)
  }

  function Bytes(items: seq<Item>, size: Size): nat {
    if items == [] then 0 else Bytes(items[..|items| - 1], size) + size(items[|items| - 1])
  }

  /** `n` items fit one page: only a lone item may exceed the budget. */
  ghost predicate Fits(rest: seq<Item>, n: nat, limit: nat, size: Size) {
    n <= |rest| && n <= limit && (n <= 1 || Bytes(rest[..n], size) <= PAGE_BYTES)
  }

  ghost predicate IsPage(chunks: seq<Item>, after: nat, limit: nat, size: Size, page: Page) {
    if after >= |chunks| then page == Page([], 0) else
      var rest, n := chunks[after..], |page.items|;
      && page.items <= rest && Fits(rest, n, limit, size) && !Fits(rest, n + 1, limit, size)
      && page.next == if n < |rest| then after + n else 0
  }

  lemma FitsNext(rest: seq<Item>, n: nat, limit: nat, size: Size)
    requires n < |rest|
    ensures Fits(rest, n + 1, limit, size) <==> n < limit && (n == 0 || Bytes(Leading(rest, n), size) + size(rest[n]) <= PAGE_BYTES)
    ensures Bytes(Leading(rest, n + 1), size) == Bytes(Leading(rest, n), size) + size(rest[n])
    ensures Leading(rest, n + 1) == Leading(rest, n) + [rest[n]]
  {
    assert rest[..n + 1][..n] == rest[..n];
  }

  function Leading(rest: seq<Item>, n: nat): seq<Item>
    requires n <= |rest|
  {
    rest[..n]
  }

  lemma PageEnds(chunks: seq<Item>, after: nat, n: nat, limit: nat, size: Size)
    requires after < |chunks| && n <= |chunks| - after
    requires Fits(chunks[after..], n, limit, size) && !Fits(chunks[after..], n + 1, limit, size)
    ensures IsPage(chunks, after, limit, size, PageOf(chunks, after, Leading(chunks[after..], n)))
  {}

  lemma PageLimits(rest: seq<Item>, limit: nat, size: Size)
    ensures Fits(rest, 0, limit, size) && !Fits(rest, |rest| + 1, limit, size) && Bytes([], size) == 0 && Leading(rest, 0) == []
  {}

  /** The page loop, on the chunks and a normalised limit. */
  method ProjectPage(chunks: seq<Item>, after: nat, limit: nat, size: Size) returns (page: Page)
    requires 1 <= limit
    ensures IsPage(chunks, after, limit, size, page)
  {
    if after >= |chunks| { return Page([], 0); }
    hide Fits, Bytes, IsPage, Leading;
    ghost var rest := chunks[after..];
    PageLimits(rest, limit, size);
    var items: seq<Item> := [];
    var pageBytes := 0;
    for index := after to |chunks|
      invariant |items| == index - after && items == Leading(rest, |items|) && pageBytes == Bytes(items, size)
      invariant Fits(rest, |items|, limit, size)
    {
      var item := chunks[index];
      assert rest[|items|] == item;
      FitsNext(rest, |items|, limit, size);
      if |items| >= limit || (|items| > 0 && pageBytes + size(item) > PAGE_BYTES) {
        PageEnds(chunks, after, |items|, limit, size);
        return PageOf(chunks, after, items);
      }
      items := items + [item];
      pageBytes := pageBytes + size(item);
    }
    PageEnds(chunks, after, |rest|, limit, size);
    page := PageOf(chunks, after, items);
  }

  /** `projectConversationMessagesPage`; nothing when the limit is refused. */
  method ConversationPage(messages: seq<Message>, after: nat, limit: int, size: Size) returns (r: Option<Page>)
    ensures r.Some? <==> 0 <= limit <= 1000
    ensures r.Some? ==> IsPage(Chunks(messages), after, if limit == 0 then 100 else limit, size, r.value)
  {
    hide IsPage, Chunks;
    var normal := NormalLimit(limit);
    if normal.None? { return None; }
    var chunks := ConversationChunks(messages);
    var page := ProjectPage(chunks, after, normal.value, size);
    r := Some(page);
  }

  function PageOf(chunks: seq<Item>, after: nat, items: seq<Item>): Page {
    Page(items, if after + |items| < |chunks| then after + |items| else 0)
  }

  /** A page brings at least one item while any is left, and the next cursor moves on. */
  lemma PageAdvances(chunks: seq<Item>, after: nat, limit: nat, size: Size, page: Page)
    requires IsPage(chunks, after, limit, size, page) && limit >= 1 && after < |chunks|
    ensures page.items != [] && chunks[..after] + page.items == chunks[..after + |page.items|]
    ensures page.next == 0 <==> after + |page.items| == |chunks|
    ensures page.next != 0 ==> after < page.next == after + |page.items| < |chunks|
    ensures |page.items| == 1 || Bytes(page.items, size) <= PAGE_BYTES
  {
    var rest := chunks[after..];
    assert page.items == rest[..|page.items|];
    assert Fits(rest, 1, limit, size);
  }

  /** A page ends only at the last chunk, at the limit, or where the next item would exceed 4 MiB. */
  lemma PageStops(chunks: seq<Item>, after: nat, limit: nat, size: Size, page: Page)
    requires IsPage(chunks, after, limit, size, page) && limit >= 1 && after < |chunks|
    ensures var n := after + |page.items|;
            n == |chunks| || |page.items| == limit || (n < |chunks| && Bytes(page.items + [chunks[n]], size) > 0x40_0000)
  {
    var rest, n := chunks[after..], |page.items|;
    assert page.items == rest[..n];
    if n < |rest| { assert rest[..n + 1] == rest[..n] + [rest[n]]; }
  }

  /** The pages a client has seen so far while following `Next`, and the limits it asked for; it
      stops at a page without `Next`. */
  ghost predicate Follows(chunks: seq<Item>, after: nat, pages: seq<Page>, limits: seq<nat>, size: Size)
    decreases |pages|
  {
    |pages| == |limits| &&
    (pages != [] ==>
       limits[0] >= 1 && IsPage(chunks, after, limits[0], size, pages[0])
       && if pages[0].next == 0 then |pages| == 1 else Follows(chunks, pages[0].next, pages[1..], limits[1..], size))
  }

  predicate Ended(pages: seq<Page>) { pages != [] && pages[|pages| - 1].next == 0 }

  function ItemsOf(pages: seq<Page>): seq<Item> {
    if pages == [] then [] else pages[0].items + ItemsOf(pages[1..])
  }

  /** Every page costs at least one chunk, and the pages together are the chunks from the start. */
  lemma {:induction false} FollowsFrom(chunks: seq<Item>, after: nat, pages: seq<Page>, limits: seq<nat>, size: Size)
    requires after < |chunks| && Follows(chunks, after, pages, limits, size)
    ensures ItemsOf(pages) <= chunks[after..] && |pages| <= |ItemsOf(pages)|
    ensures ItemsOf(pages) == chunks[after..] <==> Ended(pages)
    decreases |pages|
  {
    if pages != [] {
      PageAdvances(chunks, after, limits[0], size, pages[0]);
      hide IsPage;
      var first := pages[0].items;
      Divides(chunks, after, first);
      if pages[0].next == 0 {
        assert pages[1..] == [] && chunks[after + |first|..] == [];
      } else {
        var rest := pages[1..];
        assert Ended(pages) <==> Ended(rest) by { assert rest != [] ==> rest[|rest| - 1] == pages[|pages| - 1]; }
        FollowsFrom(chunks, pages[0].next, rest, limits[1..], size);
        Joins(first, ItemsOf(rest), chunks[pages[0].next..]);
      }
    }
  }

  lemma Divides(chunks: seq<Item>, after: nat, first: seq<Item>)
    requires after + |first| <= |chunks| && chunks[..after] + first == chunks[..after + |first|]
    ensures chunks[after..] == first + chunks[after + |first|..]
  {
    assert chunks == chunks[..after] + first + chunks[after + |first|..];
  }

  lemma Joins(first: seq<Item>, items: seq<Item>, rest: seq<Item>)
    requires items <= rest
    ensures first + items <= first + rest && (first + items == first + rest <==> items == rest)
  {}

  /** Following `Next` from 0, with any limits, gives the chunks in order, each once; it ends after at
      most as many pages as there are chunks, or one, and then every chunk was given. */
  lemma PagesCoverConversation(messages: seq<Message>, pages: seq<Page>, limits: seq<nat>, size: Size)
    requires Follows(Chunks(messages), 0, pages, limits, size)
    ensures ItemsOf(pages) <= Chunks(messages) && (|pages| <= |Chunks(messages)| || |pages| == 1)
    ensures !Ended(pages) ==> |pages| < |Chunks(messages)| || pages == []
    ensures Ended(pages) ==> ItemsOf(pages) == Chunks(messages) && Merge([], ItemsOf(pages)) == Shows(messages)
  {
    var chunks := Chunks(messages);
    if chunks != [] {
      FollowsFrom(chunks, 0, pages, limits, size);
      assert chunks[0..] == chunks;
    } else if pages != [] {
      assert pages[1..] == [] && pages[0].items == [];
    }
    ChunksAreLossless(messages);
  }

  /** New messages leave the chunks already paged in place. */
  lemma {:induction false} ChunksGrow(messages: seq<Message>, more: seq<Message>)
    ensures Chunks(messages) <= Chunks(messages + more)
    decreases |more|
  {
    if more == [] {
      assert messages + more == messages;
    } else {
      var init := more[..|more| - 1];
      assert (messages + more)[..|messages + more| - 1] == messages + init;
      ChunksGrow(messages, init);
    }
  }
}

/** Cutting a conversation down to a context window. */
module Truncation {
  import opened Options

  type Bytes = seq<bv8>

  datatype Part = TextPart(text: Bytes) | OtherPart

  /** Message content: missing or empty, a text, a list of parts, or anything else by the text
      it renders to. All texts are UTF-8. */
  datatype Content = Missing | Plain(text: Bytes) | Parts(parts: seq<Part>) | Rendered(shown: Bytes)

  datatype Message = Message(role: Bytes, content: Content)

  const SYSTEM: Bytes := [0x73, 0x79, 0x73, 0x74, 0x65, 0x6d]

  const SPACE: Bytes := [0x20]

  const OVERHEAD := 1

  /** A tokenizer gives the pieces that its tokens cover. */
  type Tokenizer = Bytes -> seq<Bytes>

  function Joined(parts: seq<Part>): Bytes {
    if parts == [] then []
    else if parts[0].OtherPart? then Joined(parts[1..])
    else parts[0].text + Tail(parts[1..])
  }

  function Tail(parts: seq<Part>): Bytes {
    if parts == [] then []
    else if parts[0].OtherPart? then Tail(parts[1..])
    else SPACE + parts[0].text + Tail(parts[1..])
  }

  /** _extract_text: the text parts, separated by spaces. */
  function Extract(content: Content): Bytes {
    match content
    case Missing => []
    case Plain(text) => text
    case Parts(parts) => Joined(parts)
    case Rendered(shown) => shown
  }

  function Size(m: Message): nat {
    |m.role| + |Extract(m.content)| + OVERHEAD
  }

  function Cost(m: Message, tok: Tokenizer): (r: nat)
    ensures r >= 1
  {
    |tok(m.role)| + |tok(Extract(m.content))| + OVERHEAD
  }

  function Bound(messages: seq<Message>): nat {
    if messages == [] then 0 else Size(messages[0]) + Bound(messages[1..])
  }

  function Tokens(messages: seq<Message>, tok: Tokenizer): nat {
    if messages == [] then 0 else Cost(messages[0], tok) + Tokens(messages[1..], tok)
  }

  function Systems(messages: seq<Message>): seq<Message> {
    if messages == [] then []
    else (if messages[0].role == SYSTEM then [messages[0]] else []) + Systems(messages[1..])
  }

  function Others(messages: seq<Message>): seq<Message> {
    if messages == [] then []
    else (if messages[0].role != SYSTEM then [messages[0]] else []) + Others(messages[1..])
  }

  function LastOf(messages: seq<Message>, k: nat): seq<Message>
    requires k <= |messages|
  {
    messages[|messages| - k..]
  }

  predicate Fits(system: seq<Message>, history: seq<Message>, limit: int, tok: Tokenizer, k: nat)
    requires k <= |history|
  {
    Tokens(system + LastOf(history, k), tok) <= limit
  }

  /** The largest `j <= k` that fits, or 0. */
  function Longest(system: seq<Message>, history: seq<Message>, limit: int, tok: Tokenizer, k: nat): (j: nat)
    requires k <= |history|
    ensures j <= k
    ensures forall i :: j < i <= k ==> !Fits(system, history, limit, tok, i)
    ensures j > 0 ==> Fits(system, history, limit, tok, j)
  {
    if k == 0 || Fits(system, history, limit, tok, k) then k else Longest(system, history, limit, tok, k - 1)
  }

  function Reserve(maxTokens: Option<int>): int {
    if maxTokens.Some? && maxTokens.value != 0 then maxTokens.value else 1024
  }

  function Limit(window: int, maxTokens: Option<int>): (limit: int)
    ensures limit >= 1 && limit >= window - Reserve(maxTokens)
  {
    if window - Reserve(maxTokens) > 1 then window - Reserve(maxTokens) else 1
  }

  /** What is kept when the shortcut does not apply. */
  function Cut(messages: seq<Message>, limit: int, tok: Tokenizer): seq<Message> {
    var system, history := Systems(messages), Others(messages);
    var best := Longest(system, history, limit, tok, |history|);
    if best == 0 && system != [] then system
    else if best == 0 then (if messages == [] then messages else LastOf(messages, 1))
    else system + LastOf(history, best)
  }

  function Truncated(messages: seq<Message>, window: int, maxTokens: Option<int>, tok: Tokenizer): seq<Message> {
    if window <= 0 || Bound(messages) <= Limit(window, maxTokens) then messages
    else Cut(messages, Limit(window, maxTokens), tok)
  }

  // ------------------------------------------------- sums

  lemma {:induction false} BoundAppend(a: seq<Message>, b: seq<Message>)
    ensures Bound(a + b) == Bound(a) + Bound(b)
  {
    if a == [] {
      assert a + b == b;
    } else {
      BoundAppend(a[1..], b);
      assert (a + b)[1..] == a[1..] + b;
    }
  }

  lemma {:induction false} TokensAppend(a: seq<Message>, b: seq<Message>, tok: Tokenizer)
    ensures Tokens(a + b, tok) == Tokens(a, tok) + Tokens(b, tok)
  {
    if a == [] {
      assert a + b == b;
    } else {
      TokensAppend(a[1..], b, tok);
      assert (a + b)[1..] == a[1..] + b;
    }
  }

  /** Each further message kept costs at least one token. */
  lemma {:induction false} FitsShrinks(system: seq<Message>, history: seq<Message>, limit: int, tok: Tokenizer,
                                       j: nat, k: nat)
    requires j <= k <= |history| && Fits(system, history, limit, tok, k)
    ensures Fits(system, history, limit, tok, j)
    ensures Tokens(system + LastOf(history, j), tok) + (k - j) <= limit
    decreases k - j
  {
    if j < k {
      FitsShrinks(system, history, limit, tok, j + 1, k);
      var tail := LastOf(history, j + 1);
      assert tail[1..] == LastOf(history, j);
      TokensAppend(system, tail, tok);
      TokensAppend(system, tail[1..], tok);
    }
  }

  // ------------------------------------------------- the algorithms

  method TokenUpperBound(messages: seq<Message>) returns (total: nat)
    ensures total == Bound(messages)
  {
    total := 0;
    for i := 0 to |messages|
      invariant total == Bound(messages[..i])
    {
      var text := Extract(messages[i].content);
      total := total + |messages[i].role| + |text| + OVERHEAD;
      BoundAppend(messages[..i], [messages[i]]);
      assert messages[..i + 1] == messages[..i] + [messages[i]];
    }
    assert messages[..|messages|] == messages;
  }

  method EstimateTokens(messages: seq<Message>, tok: Tokenizer) returns (total: nat)
    ensures total == Tokens(messages, tok)
  {
    total := 0;
    for i := 0 to |messages|
      invariant total == Tokens(messages[..i], tok)
    {
      var text := Extract(messages[i].content);
      total := total + |tok(messages[i].role)| + |tok(text)| + OVERHEAD;
      TokensAppend(messages[..i], [messages[i]], tok);
      assert messages[..i + 1] == messages[..i] + [messages[i]];
    }
    assert messages[..|messages|] == messages;
  }

  /** The binary search finds what a search from the longest suffix down would find. */
  method SearchSuffix(system: seq<Message>, history: seq<Message>, limit: int, tok: Tokenizer) returns (best: nat)
    ensures best == Longest(system, history, limit, tok, |history|)
  {
    var low, high := 0, |history|;
    best := 0;
    while low <= high
      invariant 0 <= low <= high + 1 <= |history| + 1
      invariant best == if low == 0 then 0 else low - 1
      invariant best == 0 || Fits(system, history, limit, tok, best)
      invariant high == |history| || !Fits(system, history, limit, tok, high + 1)
    {
      var mid := (low + high) / 2;
      var candidate := system + history[|history| - mid..];
      var estimate := EstimateTokens(candidate, tok);
      if estimate <= limit {
        best := mid;
        low := mid + 1;
      } else {
        high := mid - 1;
      }
    }
    LongestUnique(system, history, limit, tok, best);
  }

  lemma LongestUnique(system: seq<Message>, history: seq<Message>, limit: int, tok: Tokenizer, best: nat)
    requires best <= |history|
    requires best == 0 || Fits(system, history, limit, tok, best)
    requires best == |history| || !Fits(system, history, limit, tok, best + 1) || !Fits(system, history, limit, tok, 0)
    ensures best == Longest(system, history, limit, tok, |history|)
  {
    var j := Longest(system, history, limit, tok, |history|);
    if best < j {
      FitsShrinks(system, history, limit, tok, best + 1, j);
      FitsShrinks(system, history, limit, tok, 0, j);
    }
  }

  /** The part of truncate_to_context_window behind the shortcut. */
  method KeepNewest(messages: seq<Message>, limit: int, tok: Tokenizer) returns (kept: seq<Message>)
    ensures kept == Cut(messages, limit, tok)
  {
    var system, history := Systems(messages), Others(messages);
    var best := SearchSuffix(system, history, limit, tok);
    if best == 0 {
      if system != [] {
        return system;
      }
      return if messages == [] then messages else messages[|messages| - 1..];
    }
    return system + history[|history| - best..];
  }

  method TruncateToContextWindow(messages: seq<Message>, window: int, maxTokens: Option<int>, tok: Tokenizer)
    returns (kept: seq<Message>)
    ensures kept == Truncated(messages, window, maxTokens, tok)
  {
    if window <= 0 {
      return messages;
    }
    var reserve := if maxTokens.Some? && maxTokens.value != 0 then maxTokens.value else 1024;
    var limit := if window - reserve > 1 then window - reserve else 1;
    assert limit == Limit(window, maxTokens);
    var bound := TokenUpperBound(messages);
    if bound <= limit {
      return messages;
    }
    kept := KeepNewest(messages, limit, tok);
  }

  // ------------------------------------------------- the smallest window of the candidates

  function Known(windows: seq<int>): (known: seq<int>)
    ensures forall w :: w in known <==> w in windows && w > 0
  {
    if windows == [] then []
    else (if windows[0] > 0 then [windows[0]] else []) + Known(windows[1..])
  }

  function Min(xs: seq<int>): (m: int)
    requires xs != []
    ensures m in xs && forall x :: x in xs ==> m <= x
  {
    if |xs| == 1 then xs[0]
    else
      var rest := Min(xs[1..]);
      assert xs == [xs[0]] + xs[1..];
      if xs[0] <= rest then xs[0] else rest
  }

  method TruncateMessages(messages: seq<Message>, windows: seq<int>, maxTokens: Option<int>, tok: Tokenizer)
    returns (kept: seq<Message>)
    ensures kept == if Known(windows) == [] then messages else Truncated(messages, Min(Known(windows)), maxTokens, tok)
  {
    var known := Known(windows);
    if known == [] {
      return messages;
    }
    kept := TruncateToContextWindow(messages, Min(known), maxTokens, tok);
  }

  // ------------------------------------------------- the shortcut is sound

  function Concat(pieces: seq<Bytes>): Bytes {
    if pieces == [] then [] else pieces[0] + Concat(pieces[1..])
  }

  /** Every token covers at least one byte, and together they cover the text. */
  ghost predicate Splits(tok: Tokenizer) {
    forall text :: Concat(tok(text)) == text && forall i :: 0 <= i < |tok(text)| ==> tok(text)[i] != []
  }

  lemma {:induction false} PiecesWithinBytes(pieces: seq<Bytes>)
    requires forall i :: 0 <= i < |pieces| ==> pieces[i] != []
    ensures |pieces| <= |Concat(pieces)|
  {
    if pieces != [] {
      PiecesWithinBytes(pieces[1..]);
    }
  }

  /** The byte bound is an upper bound of the token count. */
  lemma {:induction false} EstimateBelowBound(messages: seq<Message>, tok: Tokenizer)
    requires Splits(tok)
    ensures Tokens(messages, tok) <= Bound(messages)
  {
    if messages != [] {
      var m := messages[0];
      PiecesWithinBytes(tok(m.role));
      PiecesWithinBytes(tok(Extract(m.content)));
      EstimateBelowBound(messages[1..], tok);
    }
  }

  lemma {:induction false} PartsByRole(messages: seq<Message>)
    ensures forall m :: m in Systems(messages) ==> m.role == SYSTEM
    ensures forall m :: m in Others(messages) ==> m.role != SYSTEM
  {
    if messages != [] {
      PartsByRole(messages[1..]);
    }
  }

  lemma {:induction false} PartsCost(messages: seq<Message>, tok: Tokenizer)
    ensures Tokens(Systems(messages), tok) + Tokens(Others(messages), tok) == Tokens(messages, tok)
  {
    if messages != [] {
      var m, rest := messages[0], messages[1..];
      PartsCost(rest, tok);
      if m.role == SYSTEM {
        assert Systems(messages) == [m] + Systems(rest) && Others(messages) == Others(rest);
        TokensAppend([m], Systems(rest), tok);
      } else {
        assert Others(messages) == [m] + Others(rest) && Systems(messages) == Systems(rest);
        TokensAppend([m], Others(rest), tok);
      }
    }
  }

  lemma {:induction false} PartsAreAll(messages: seq<Message>)
    ensures multiset(Systems(messages) + Others(messages)) == multiset(messages)
    ensures |Systems(messages)| + |Others(messages)| == |messages|
  {
    if messages != [] {
      PartsAreAll(messages[1..]);
      MultisetHead(messages);
      var m, a, b := messages[0], Systems(messages[1..]), Others(messages[1..]);
      assert multiset(([m] + a) + b) == multiset([m]) + multiset(a) + multiset(b);
      assert multiset(a + ([m] + b)) == multiset([m]) + multiset(a) + multiset(b);
    }
  }

  lemma MultisetHead(messages: seq<Message>)
    requires messages != []
    ensures multiset(messages) == multiset([messages[0]]) + multiset(messages[1..])
  {
    assert messages == [messages[0]] + messages[1..];
  }

  lemma {:induction false} NoSystemsAllOthers(messages: seq<Message>, tok: Tokenizer)
    ensures Systems(messages) == [] ==> Others(messages) == messages
    ensures Others(messages) == [] ==> Systems(messages) == messages
  {
    if messages != [] {
      NoSystemsAllOthers(messages[1..], tok);
    }
  }

  /** When the shortcut returns all messages, the slow path would keep all of them too, with
      the system messages moved to the front. */
  lemma ShortcutSound(messages: seq<Message>, limit: int, tok: Tokenizer)
    requires Splits(tok) && Bound(messages) <= limit
    ensures Tokens(messages, tok) <= limit
    ensures Cut(messages, limit, tok) == Systems(messages) + Others(messages)
    ensures multiset(Cut(messages, limit, tok)) == multiset(messages)
  {
    EstimateBelowBound(messages, tok);
    PartsAreAll(messages);
    PartsCost(messages, tok);
    var system, history := Systems(messages), Others(messages);
    TokensAppend(system, history, tok);
    assert LastOf(history, |history|) == history;
    assert Fits(system, history, limit, tok, |history|);
    assert history == [] ==> system + history == system;
  }

  /** No system message follows another message. */
  predicate SystemsLead(messages: seq<Message>) {
    forall i, j :: 0 <= i < j < |messages| && messages[j].role == SYSTEM ==> messages[i].role == SYSTEM
  }

  /** So the shortcut and the slow path return the same list exactly when the system messages
      already lead. */
  lemma ShortcutChangesOnlyOrder(messages: seq<Message>, limit: int, tok: Tokenizer)
    requires Splits(tok) && Bound(messages) <= limit
    ensures Cut(messages, limit, tok) == messages <==> SystemsLead(messages)
  {
    ShortcutSound(messages, limit, tok);
    PartsAreAll(messages);
    PartsByRole(messages);
    var system, history := Systems(messages), Others(messages);
    if system + history == messages {
      forall j | |system| <= j < |messages|
        ensures messages[j].role != SYSTEM
      {
        assert messages[j] == history[j - |system|];
      }
      forall i | 0 <= i < |system|
        ensures messages[i].role == SYSTEM
      {
        assert messages[i] == system[i];
      }
    }
    if SystemsLead(messages) {
      LeadingSystems(messages);
    }
  }

  lemma {:induction false} LeadingSystems(messages: seq<Message>)
    requires SystemsLead(messages)
    ensures Systems(messages) + Others(messages) == messages
  {
    if messages != [] {
      var m, rest := messages[0], messages[1..];
      LeadingSystems(rest);
      assert [m] + rest == messages;
      if m.role == SYSTEM {
        assert Systems(messages) + Others(messages) == [m] + (Systems(rest) + Others(rest));
      } else {
        NoneBehind(rest);
        assert Systems(messages) + Others(messages) == [m] + Others(rest);
      }
    }
  }

  lemma {:induction false} NoneBehind(messages: seq<Message>)
    requires forall i :: 0 <= i < |messages| ==> messages[i].role != SYSTEM
    ensures Systems(messages) == []
  {
    if messages != [] {
      NoneBehind(messages[1..]);
    }
  }

  // ------------------------------------------------- truncation is optimal

  /** All system messages and the longest suffix of the rest that fits: one message more would
      not. */
  lemma CutIsOptimal(messages: seq<Message>, limit: int, tok: Tokenizer) returns (k: nat)
    requires Tokens(Systems(messages), tok) <= limit
    ensures var system, history := Systems(messages), Others(messages);
            && k <= |history|
            && Tokens(system + LastOf(history, k), tok) <= limit
            && (forall j :: k < j <= |history| ==> Tokens(system + LastOf(history, j), tok) > limit)
            && (k > 0 || system != [] ==> Cut(messages, limit, tok) == system + LastOf(history, k))
  {
    var system, history := Systems(messages), Others(messages);
    k := Longest(system, history, limit, tok, |history|);
    assert LastOf(history, 0) == [] && system + [] == system;
    forall j | k < j <= |history|
      ensures Tokens(system + LastOf(history, j), tok) > limit
    {
      assert !Fits(system, history, limit, tok, j);
    }
  }

  /** What the caller can check beforehand: the system messages fit, or there are none and the
      last message fits. */
  predicate SomethingFits(messages: seq<Message>, limit: int, tok: Tokenizer) {
    if Systems(messages) != [] then Tokens(Systems(messages), tok) <= limit
    else messages != [] ==> Tokens(LastOf(messages, 1), tok) <= limit
  }

  /** The slow path returns a list over the limit exactly when nothing fits. */
  lemma CutFits(messages: seq<Message>, limit: int, tok: Tokenizer)
    requires limit >= 0
    ensures Tokens(Cut(messages, limit, tok), tok) <= limit <==> SomethingFits(messages, limit, tok)
  {
    var system, history := Systems(messages), Others(messages);
    var k := Longest(system, history, limit, tok, |history|);
    assert LastOf(history, 0) == [] && system + [] == system;
    if k > 0 {
      FitsShrinks(system, history, limit, tok, 0, k);
    }
    if system == [] && messages != [] {
      NoSystemsAllOthers(messages, tok);
      assert system + LastOf(history, 1) == LastOf(messages, 1);
      if k > 0 {
        FitsShrinks(system, history, limit, tok, 1, k);
      }
    }
  }

  lemma {:induction false} PartBelowWhole(messages: seq<Message>, limit: int, tok: Tokenizer)
    requires Tokens(messages, tok) <= limit
    ensures SomethingFits(messages, limit, tok)
  {
    PartsAreAll(messages);
    PartsCost(messages, tok);
    if messages != [] {
      var n := |messages| - 1;
      assert messages == messages[..n] + LastOf(messages, 1);
      TokensAppend(messages[..n], LastOf(messages, 1), tok);
    }
  }

  lemma TruncatedFits(messages: seq<Message>, window: int, maxTokens: Option<int>, tok: Tokenizer)
    requires Splits(tok) && window > 0
    ensures Tokens(Truncated(messages, window, maxTokens, tok), tok) <= Limit(window, maxTokens)
            <==> SomethingFits(messages, Limit(window, maxTokens), tok)
  {
    var limit := Limit(window, maxTokens);
    if Bound(messages) <= limit {
      ShortcutSound(messages, limit, tok);
      PartBelowWhole(messages, limit, tok);
    } else {
      CutFits(messages, limit, tok);
    }
  }

  /** If anything fits the smallest known window, then what is sent, together with the tokens
      reserved for the answer, fits every endpoint whose known window is above the reserve. */
  lemma FitsEveryEndpoint(messages: seq<Message>, windows: seq<int>, maxTokens: Option<int>, tok: Tokenizer, w: int)
    requires Splits(tok) && w in windows && w > 0 && w > Reserve(maxTokens)
    requires SomethingFits(messages, Limit(Min(Known(windows)), maxTokens), tok)
    ensures Tokens(Truncated(messages, Min(Known(windows)), maxTokens, tok), tok) + Reserve(maxTokens) <= w
    ensures Reserve(maxTokens) == if maxTokens.None? || maxTokens.value == 0 then 1024 else maxTokens.value
  {
    TruncatedFits(messages, Min(Known(windows)), maxTokens, tok);
  }

  lemma LoneMessageUncut(m: Message, limit: int, tok: Tokenizer)
    requires m.role != SYSTEM
    ensures Cut([m], limit, tok) == [m]
  {
    NoneBehind([m]);
    NoSystemsAllOthers([m], tok);
    UncutWithoutSystems([m], limit, tok);
  }

  lemma UncutWithoutSystems(messages: seq<Message>, limit: int, tok: Tokenizer)
    requires Systems(messages) == [] && Others(messages) == messages && |messages| == 1
    ensures Cut(messages, limit, tok) == messages
  {
    var best := Longest([], messages, limit, tok, 1);
    assert LastOf(messages, 1) == messages && [] + messages == messages;
    assert best == 0 || best == 1;
  }

  /** A conversation of one message that is no system message is never cut. */
  lemma LoneMessageKept(m: Message, window: int, maxTokens: Option<int>, tok: Tokenizer)
    requires m.role != SYSTEM
    ensures Truncated([m], window, maxTokens, tok) == [m]
  {
    LoneMessageUncut(m, Limit(window, maxTokens), tok);
  }

  /** One token for each byte. */
  function ByBytes(): Tokenizer {
    text => seq(|text|, i requires 0 <= i < |text| => [text[i]])
  }

  /** A conversation that is sent over the limit: one message of two bytes, and room for one
      token. */
  lemma OverLimitCanBeSent()
    ensures var messages := [Message([], Plain([1, 2]))];
            Tokens(Cut(messages, 1, ByBytes()), ByBytes()) == 3
  {
    var m, tok := Message([], Plain([1, 2])), ByBytes();
    LoneMessageUncut(m, 1, tok);
    assert |tok([])| == 0 && |tok([1, 2])| == 2;
    assert Tokens([m][1..], tok) == 0;
  }

  // ------------------------------------------------- what is measured and what is kept

  lemma Joins(a: Bytes, b: Bytes, c: Bytes)
    ensures a + (b + c) == (a + b) + c
  {
  }

  lemma {:induction false} TailGrows(parts: seq<Part>, last: Part)
    ensures Tail(parts + [last]) == Tail(parts) + if last.TextPart? then [0x20] + last.text else []
  {
    var longer := parts + [last];
    if parts == [] {
      assert longer[1..] == [];
    } else {
      TailGrows(parts[1..], last);
      assert longer[1..] == parts[1..] + [last] && longer[0] == parts[0];
      if parts[0].TextPart? {
        Joins(SPACE + parts[0].text, Tail(parts[1..]), if last.TextPart? then [0x20] + last.text else []);
      }
    }
  }

  predicate HasText(parts: seq<Part>) {
    exists i :: 0 <= i < |parts| && parts[i].TextPart?
  }

  lemma HasTextBehind(parts: seq<Part>)
    requires parts != [] && parts[0].OtherPart?
    ensures HasText(parts) <==> HasText(parts[1..])
  {
    if i :| 0 <= i < |parts| && parts[i].TextPart? {
      assert parts[1..][i - 1].TextPart?;
    }
  }

  lemma {:induction false} JoinedGrows(parts: seq<Part>, last: Part)
    ensures Joined(parts + [last])
            == if last.OtherPart? then Joined(parts)
               else if HasText(parts) then Joined(parts) + ([0x20] + last.text) else last.text
  {
    var longer := parts + [last];
    if parts == [] {
      assert longer[1..] == [];
    } else {
      assert longer[1..] == parts[1..] + [last] && longer[0] == parts[0];
      if parts[0].OtherPart? {
        JoinedGrows(parts[1..], last);
        HasTextBehind(parts);
      } else {
        TailGrows(parts[1..], last);
        assert HasText(parts);
        Joins(parts[0].text, Tail(parts[1..]), if last.TextPart? then [0x20] + last.text else []);
      }
    }
  }

  /** A list of parts measures as its texts joined by single spaces. */
  lemma OneMorePart(parts: seq<Part>, last: Part)
    ensures Extract(Parts([])) == []
    ensures Extract(Parts(parts + [last]))
            == if last.OtherPart? then Extract(Parts(parts))
               else if exists i :: 0 <= i < |parts| && parts[i].TextPart? then
                 Extract(Parts(parts)) + ([0x20] + last.text)
               else last.text
  {
    JoinedGrows(parts, last);
  }

  /** Each further message adds its role, its text and one. */
  lemma OneMoreMessage(messages: seq<Message>, m: Message, tok: Tokenizer)
    ensures Bound([]) == 0 && Tokens([], tok) == 0
    ensures Bound(messages + [m]) == Bound(messages) + |m.role| + |Extract(m.content)| + 1
    ensures Tokens(messages + [m], tok) == Tokens(messages, tok) + |tok(m.role)| + |tok(Extract(m.content))| + 1
    ensures m.content == Missing ==> Bound(messages + [m]) == Bound(messages) + |m.role| + 1
    ensures forall text :: m.content == Plain(text) || m.content == Rendered(text) ==>
                             Bound(messages + [m]) == Bound(messages) + |m.role| + |text| + 1
  {
    BoundAppend(messages, [m]);
    TokensAppend(messages, [m], tok);
    assert [m][1..] == [];
  }

  /** The room for the messages: the window less the answer's tokens, which are 1024 when the
      caller does not say, and one token at least. */
  function Room(window: int, maxTokens: Option<int>): int {
    var left := window - match maxTokens
                         case Some(n) => if n == 0 then 1024 else n
                         case None => 1024;
    if left < 1 then 1 else left
  }

  lemma LimitIsRoom(window: int, maxTokens: Option<int>)
    ensures Limit(window, maxTokens) == Room(window, maxTokens)
  {
  }

  /** Nothing is cut without a window, or when the bound leaves room; otherwise what is kept is
      the best cut for that room. */
  lemma TruncatedExactly(messages: seq<Message>, window: int, maxTokens: Option<int>, tok: Tokenizer)
    ensures Truncated(messages, window, maxTokens, tok)
            == if window <= 0 || Bound(messages) <= Room(window, maxTokens) then messages
               else Cut(messages, Room(window, maxTokens), tok)
  {
    LimitIsRoom(window, maxTokens);
  }

  /** The role is spelled "system". */
  predicate IsSystem(m: Message) {
    |m.role| == 6 && forall i :: 0 <= i < 6 ==> m.role[i] as int == "system"[i] as int
  }

  lemma SystemSpelled(m: Message)
    ensures IsSystem(m) <==> m.role == SYSTEM
  {
    assert IsSystem(m) ==> forall i :: 0 <= i < 6 ==> m.role[i] == SYSTEM[i];
    assert m.role == SYSTEM ==> m.role[0] as int == 's' as int && m.role[1] as int == 'y' as int;
    assert m.role == SYSTEM ==> m.role[2] as int == 's' as int && m.role[3] as int == 't' as int;
    assert m.role == SYSTEM ==> m.role[4] as int == 'e' as int && m.role[5] as int == 'm' as int;
  }

  lemma {:induction false} SplitByRole(messages: seq<Message>, m: Message)
    ensures m in Systems(messages) <==> m in messages && IsSystem(m)
    ensures m in Others(messages) <==> m in messages && !IsSystem(m)
  {
    SystemSpelled(m);
    if messages != [] {
      SplitByRole(messages[1..], m);
      assert messages == [messages[0]] + messages[1..];
    }
  }

  /** A system message is never cut. */
  lemma SystemsAreKept(messages: seq<Message>, limit: int, tok: Tokenizer, m: Message)
    requires m in messages && IsSystem(m)
    ensures m in Cut(messages, limit, tok)
  {
    SplitByRole(messages, m);
  }
}

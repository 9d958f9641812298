/**
 Linking glossary terms in a page: the first occurrence of each term becomes a link with a tooltip. The page is
 a tree of values here, and the pattern search a function given from outside.
 */
module Glossary {
  import opened Wrappers
  import opened Sequences

  /**
   An element of the page, or a link the linker has put in: its text is the words linked, its tooltip is not page text.
   A link has the tag of an anchor, so it is skipped like one.
   */
  datatype Element =
    | Page(tag: string, skip: bool, text: string, tail: string, children: seq<Element>)
    | Link(slug: string, words: string, tooltip: string, tail: string)

  const SKIP_TAGS: set<string> := {"a", "code", "h1", "h2", "h3", "h4", "h5", "h6", "kbd", "pre", "script", "style"}

  predicate Skips(e: Element) {
    e.Link? || e.tag in SKIP_TAGS || e.skip
  }

  datatype Term = Term(slug: string, phrase: string, tooltip: string)

  datatype Span = Span(start: nat, end: nat)

  /** A search finds nothing or a stretch of the text at or after the cursor. */
  type Search = f: (Term, string, nat) -> Option<Span>
    | forall t: Term, s: string, c: nat ::
      c <= |s| && f(t, s, c).Some? ==> c <= f(t, s, c).value.start <= f(t, s, c).value.end <= |s|
    witness (t, s, c) => None

  /** The text with what is written by the linker set aside: plain stretches and linked words. */
  datatype Piece = Plain(s: string) | Linked(slug: string, words: string, tooltip: string)

  // ----- The text of pieces and elements -----

  function PieceText(p: Piece): string {
    match p
    case Plain(s) => s
    case Linked(_, words, _) => words
  }

  function TextOf(pieces: seq<Piece>): string {
    if pieces == [] then [] else TextOf(pieces[..|pieces| - 1]) + PieceText(pieces[|pieces| - 1])
  }

  /** The text a reader of the page sees, tooltips aside; an element's tail follows it. */
  function Visible(e: Element): string {
    match e
    case Page(_, _, text, _, children) => text + VisibleAll(children)
    case Link(_, words, _, _) => words
  }

  function VisibleAll(es: seq<Element>): string {
    if es == [] then [] else Visible(es[0]) + es[0].tail + VisibleAll(es[1..])
  }

  /** How often a slug is linked. */
  function Count(e: Element, slug: string): nat {
    match e
    case Page(_, _, _, _, children) => CountAll(children, slug)
    case Link(s, _, _, _) => if s == slug then 1 else 0
  }

  function CountAll(es: seq<Element>, slug: string): nat {
    if es == [] then 0 else Count(es[0], slug) + CountAll(es[1..], slug)
  }

  predicate NoLinks(e: Element) {
    e.Page? && forall i :: 0 <= i < |e.children| ==> NoLinks(e.children[i])
  }

  /** Nothing skipped holds a link. */
  predicate SkippedAreBare(e: Element) {
    match e
    case Link(_, _, _, _) => true
    case Page(_, _, _, _, children) =>
      if e.tag in SKIP_TAGS || e.skip then NoLinks(e)
      else forall i :: 0 <= i < |children| ==> SkippedAreBare(children[i])
  }

  // ----- Taking the links out again -----

  /** The element without the linker's links: each gives its words and tail back to the text before it. */
  function Strip(e: Element): Element {
    match e
    case Page(tag, skip, text, tail, children) =>
      var (t, kept) := Absorb(text, children);
      Page(tag, skip, t, tail, kept)
    case Link(_, _, _, _) => e
  }

  function Absorb(text: string, es: seq<Element>): (string, seq<Element>)
    decreases es
  {
    if es == [] then (text, [])
    else
      match es[0]
      case Link(_, words, _, tail) => Absorb(text + words + tail, es[1..])
      case Page(_, _, _, tail, _) =>
        var (after, kept) := Absorb(tail, es[1..]);
        (text, [WithTail(Strip(es[0]), after)] + kept)
  }

  function WithTail(e: Element, tail: string): (r: Element)
    ensures r.tail == tail && r.Page? == e.Page?
  {
    match e
    case Page(tag, skip, text, _, children) => Page(tag, skip, text, tail, children)
    case Link(slug, words, tooltip, _) => Link(slug, words, tooltip, tail)
  }

  predicate AllLinks(es: seq<Element>) {
    forall i :: 0 <= i < |es| ==> es[i].Link?
  }

  lemma {:induction false} AbsorbLinks(text: string, links: seq<Element>, rest: seq<Element>)
    requires AllLinks(links)
    ensures Absorb(text, links + rest) == Absorb(text + VisibleAll(links), rest)
    decreases |links|
  {
    if links == [] {
      assert links + rest == rest && text + VisibleAll(links) == text;
    } else {
      assert (links + rest)[1..] == links[1..] + rest;
      AbsorbLinks(text + links[0].words + links[0].tail, links[1..], rest);
      assert text + links[0].words + links[0].tail + VisibleAll(links[1..]) == text + VisibleAll(links);
    }
  }

  /** Two ways to go on that strip alike after the same beginning strip alike. */
  lemma {:induction false} AbsorbAfter(text: string, before: seq<Element>, a: seq<Element>, b: seq<Element>)
    requires forall t :: Absorb(t, a) == Absorb(t, b)
    ensures Absorb(text, before + a) == Absorb(text, before + b)
    decreases |before|
  {
    if before == [] {
      assert before + a == a && before + b == b;
    } else {
      assert (before + a)[1..] == before[1..] + a && (before + b)[1..] == before[1..] + b;
      match before[0]
      case Link(_, words, _, tail) => AbsorbAfter(text + words + tail, before[1..], a, b);
      case Page(_, _, _, tail, _) => AbsorbAfter(tail, before[1..], a, b);
    }
  }

  /** A child may be changed for one that strips alike, with the end of its tail spread over links after it. */
  lemma {:induction false} AbsorbChild(c: Element, d: Element, links: seq<Element>, rest: seq<Element>)
    requires AllLinks(links) && d.tail + VisibleAll(links) == c.tail
    requires if c.Link? then d == WithTail(c, d.tail) else d.Page? && WithTail(Strip(d), "") == WithTail(Strip(c), "")
    ensures forall t :: Absorb(t, [d] + links + rest) == Absorb(t, [c] + rest)
  {
    forall t
      ensures Absorb(t, [d] + links + rest) == Absorb(t, [c] + rest)
    {
      assert ([d] + links + rest)[1..] == links + rest && ([c] + rest)[1..] == rest;
      if c.Link? {
        AbsorbLinks(t + d.words + d.tail, links, rest);
        assert t + d.words + d.tail + VisibleAll(links) == t + c.words + c.tail;
      } else {
        AbsorbLinks(d.tail, links, rest);
      }
    }
  }

  lemma {:induction false} CountConcat(a: seq<Element>, b: seq<Element>, slug: string)
    ensures CountAll(a + b, slug) == CountAll(a, slug) + CountAll(b, slug)
    decreases |a|
  {
    if a == [] {
      assert a + b == b;
    } else {
      assert (a + b)[1..] == a[1..] + b;
      CountConcat(a[1..], b, slug);
    }
  }

  /** What linking does to an element: it strips to the same, and each newly seen slug is linked once more. */
  ghost predicate Progress(e: Element, seen: set<string>, n: Element, newSeen: set<string>) {
    && seen <= newSeen && n.tail == e.tail && n.Page? == e.Page? && Skips(n) == Skips(e)
    && Strip(n) == Strip(e)
    && (forall slug :: Count(n, slug) == Count(e, slug) + (if slug in newSeen && slug !in seen then 1 else 0))
    && (SkippedAreBare(e) ==> SkippedAreBare(n))
  }

  lemma ProgressChains(a: Element, s: set<string>, b: Element, t: set<string>, c: Element, u: set<string>)
    requires Progress(a, s, b, t) && Progress(b, t, c, u)
    ensures Progress(a, s, c, u)
  {
  }

  // ----- Pieces as links -----

  /** Pieces as the text before the first link, and the links with the text after each as its tail. */
  function Build(pieces: seq<Piece>): (r: (string, seq<Element>))
    ensures AllLinks(r.1)
  {
    if pieces == [] then ("", [])
    else
      var (lead, links) := Build(pieces[..|pieces| - 1]);
      match pieces[|pieces| - 1]
      case Linked(slug, words, tooltip) => (lead, links + [Link(slug, words, tooltip, "")])
      case Plain(s) =>
        if links == [] then (lead + s, [])
        else
          var last := links[|links| - 1];
          (lead, links[..|links| - 1] + [WithTail(last, last.tail + s)])
  }

  lemma {:induction false} VisibleConcat(a: seq<Element>, b: seq<Element>)
    ensures VisibleAll(a + b) == VisibleAll(a) + VisibleAll(b)
    decreases |a|
  {
    if a == [] {
      assert a + b == b;
    } else {
      assert (a + b)[1..] == a[1..] + b;
      VisibleConcat(a[1..], b);
    }
  }

  lemma {:induction false} VisibleOneMore(es: seq<Element>, e: Element)
    ensures VisibleAll(es + [e]) == VisibleAll(es) + (Visible(e) + e.tail)
  {
    VisibleConcat(es, [e]);
    assert VisibleAll([e]) == Visible(e) + e.tail + [];
  }

  /** The last link of some, and text after it. */
  lemma {:induction false} VisibleMoreTail(es: seq<Element>, s: string)
    requires es != [] && AllLinks(es)
    ensures var last := es[|es| - 1];
            VisibleAll(es[..|es| - 1] + [WithTail(last, last.tail + s)]) == VisibleAll(es) + s
  {
    var init, last := es[..|es| - 1], es[|es| - 1];
    assert es == init + [last];
    VisibleOneMore(init, last);
    VisibleOneMore(init, WithTail(last, last.tail + s));
    AppendTail(VisibleAll(init), last.words, last.tail, s);
  }

  lemma AppendTail(a: string, b: string, c: string, d: string)
    ensures a + (b + (c + d)) == a + (b + c) + d
  {
  }

  lemma {:induction false} BuildText(pieces: seq<Piece>)
    ensures Build(pieces).0 + VisibleAll(Build(pieces).1) == TextOf(pieces)
  {
    if pieces != [] {
      BuildText(pieces[..|pieces| - 1]);
      var (lead, links) := Build(pieces[..|pieces| - 1]);
      match pieces[|pieces| - 1]
      case Linked(slug, words, tooltip) =>
        VisibleOneMore(links, Link(slug, words, tooltip, ""));
        assert words + "" == words;
        ConcatAssociates(lead, VisibleAll(links), words);
      case Plain(s) =>
        if links != [] {
          VisibleMoreTail(links, s);
          ConcatAssociates(lead, VisibleAll(links), s);
        }
    }
  }

  function CountPieces(pieces: seq<Piece>, slug: string): nat {
    if pieces == [] then 0
    else
      var p := pieces[|pieces| - 1];
      CountPieces(pieces[..|pieces| - 1], slug) + (if p.Linked? && p.slug == slug then 1 else 0)
  }

  lemma {:induction false} BuildCount(pieces: seq<Piece>, slug: string)
    ensures CountAll(Build(pieces).1, slug) == CountPieces(pieces, slug)
  {
    if pieces != [] {
      BuildCount(pieces[..|pieces| - 1], slug);
      var (lead, links) := Build(pieces[..|pieces| - 1]);
      match pieces[|pieces| - 1]
      case Linked(slug1, words, tooltip) =>
        CountConcat(links, [Link(slug1, words, tooltip, "")], slug);
      case Plain(s) =>
        if links != [] {
          CountMoreTail(links, s, slug);
        }
    }
  }

  lemma {:induction false} CountMoreTail(es: seq<Element>, s: string, slug: string)
    requires es != [] && AllLinks(es)
    ensures var last := es[|es| - 1];
            CountAll(es[..|es| - 1] + [WithTail(last, last.tail + s)], slug) == CountAll(es, slug)
  {
    var init, last := es[..|es| - 1], es[|es| - 1];
    assert es == init + [last];
    CountConcat(init, [last], slug);
    CountConcat(init, [WithTail(last, last.tail + s)], slug);
  }

  /** Stripping keeps the text that is seen. */
  lemma {:induction false} StripKeepsText(e: Element)
    ensures Visible(Strip(e)) == Visible(e)
    decreases e
  {
    if e.Page? {
      AbsorbKeepsText(e.text, e.children);
    }
  }

  lemma {:induction false} AbsorbKeepsText(text: string, es: seq<Element>)
    ensures Absorb(text, es).0 + VisibleAll(Absorb(text, es).1) == text + VisibleAll(es)
    decreases es
  {
    if es != [] {
      match es[0]
      case Link(_, words, _, tail) =>
        AbsorbKeepsText(text + words + tail, es[1..]);
        assert text + words + tail + VisibleAll(es[1..]) == text + (words + tail + VisibleAll(es[1..]));
      case Page(_, _, _, tail, _) =>
        AbsorbKeepsText(tail, es[1..]);
        StripKeepsText(es[0]);
        var (after, kept) := Absorb(tail, es[1..]);
        var first := WithTail(Strip(es[0]), after);
        assert ([first] + kept)[1..] == kept;
        assert Visible(first) == Visible(es[0]);
        assert Visible(first) + after + VisibleAll(kept) == Visible(es[0]) + (tail + VisibleAll(es[1..]));
    }
  }

  /** A page without links is its own stripped form, and has none to count. */
  lemma {:induction false} NoLinksFacts(e: Element)
    requires NoLinks(e)
    ensures Strip(e) == e && SkippedAreBare(e) && forall slug :: Count(e, slug) == 0
    decreases e
  {
    AbsorbNothing(e.text, e.children);
    forall i | 0 <= i < |e.children|
      ensures SkippedAreBare(e.children[i])
    {
      NoLinksFacts(e.children[i]);
    }
  }

  lemma {:induction false} AbsorbNothing(text: string, es: seq<Element>)
    requires forall i :: 0 <= i < |es| ==> NoLinks(es[i])
    ensures Absorb(text, es) == (text, es) && forall slug :: CountAll(es, slug) == 0
    decreases es
  {
    if es != [] {
      NoLinksFacts(es[0]);
      AbsorbNothing(es[0].tail, es[1..]);
      assert es == [es[0]] + es[1..];
      assert WithTail(es[0], es[0].tail) == es[0];
    }
  }

  // ----- One replacement -----

  /** The pieces of a text, newly linking exactly the slugs that were not seen before. */
  ghost predicate PiecesOf(text: string, pieces: seq<Piece>, seen: set<string>, newSeen: set<string>) {
    && seen <= newSeen && TextOf(pieces) == text
    && forall slug :: CountPieces(pieces, slug) == if slug in newSeen && slug !in seen then 1 else 0
  }

  /** The parent's own text replaced. */
  function WithText(parent: Element, pieces: seq<Piece>): Element
    requires parent.Page?
  {
    var (lead, links) := Build(pieces);
    parent.(text := lead, children := links + parent.children)
  }

  /** The tail of a child replaced. */
  function WithChildTail(parent: Element, index: nat, pieces: seq<Piece>): Element
    requires parent.Page? && index < |parent.children|
  {
    var (lead, links) := Build(pieces);
    var child := WithTail(parent.children[index], lead);
    parent.(children := parent.children[..index] + ([child] + links + parent.children[index + 1..]))
  }

  lemma TextProgress(parent: Element, pieces: seq<Piece>, seen: set<string>, newSeen: set<string>)
    requires parent.Page? && !Skips(parent) && PiecesOf(parent.text, pieces, seen, newSeen)
    ensures Progress(parent, seen, WithText(parent, pieces), newSeen)
  {
    var (lead, links) := Build(pieces);
    BuildText(pieces);
    AbsorbLinks(lead, links, parent.children);
    forall slug
      ensures CountAll(links + parent.children, slug) == CountPieces(pieces, slug) + CountAll(parent.children, slug)
    {
      BuildCount(pieces, slug);
      CountConcat(links, parent.children, slug);
    }
  }

  /** One child exchanged for another and links after it: what is needed of the new child for the parent's progress. */
  lemma {:induction false} ChildProgress(
    parent: Element, index: nat, d: Element, links: seq<Element>, seen: set<string>, newSeen: set<string>)
    requires parent.Page? && !Skips(parent) && index < |parent.children| && AllLinks(links) && seen <= newSeen
    requires var c := parent.children[index];
             && d.tail + VisibleAll(links) == c.tail
             && (if c.Link? then d == WithTail(c, d.tail)
                 else d.Page? && WithTail(Strip(d), "") == WithTail(Strip(c), ""))
             && (forall slug ::
                   Count(d, slug) + CountAll(links, slug)
                   == Count(c, slug) + (if slug in newSeen && slug !in seen then 1 else 0))
             && (SkippedAreBare(c) ==> SkippedAreBare(d))
    ensures Progress(parent, seen,
                     parent.(children := parent.children[..index] + ([d] + links + parent.children[index + 1..])),
                     newSeen)
  {
    var before, c, rest := parent.children[..index], parent.children[index], parent.children[index + 1..];
    assert parent.children == before + ([c] + rest);
    AbsorbChild(c, d, links, rest);
    AbsorbAfter(parent.text, before, [d] + links + rest, [c] + rest);
    forall slug
      ensures CountAll(before + ([d] + links + rest), slug)
           == CountAll(before + ([c] + rest), slug) + (if slug in newSeen && slug !in seen then 1 else 0)
    {
      CountConcat(before, [d] + links + rest, slug);
      CountConcat([d] + links, rest, slug);
      CountConcat([d], links, slug);
      CountConcat(before, [c] + rest, slug);
      CountConcat([c], rest, slug);
    }
    if SkippedAreBare(parent) {
      BareExchange(parent.children, index, d, links);
    }
  }

  lemma {:induction false} BareExchange(es: seq<Element>, index: nat, d: Element, links: seq<Element>)
    requires index < |es| && AllLinks(links) && SkippedAreBare(d)
    requires forall i :: 0 <= i < |es| ==> SkippedAreBare(es[i])
    ensures var now := es[..index] + ([d] + links + es[index + 1..]);
            forall i :: 0 <= i < |now| ==> SkippedAreBare(now[i])
  {
    var now := es[..index] + ([d] + links + es[index + 1..]);
    forall i | 0 <= i < |now|
      ensures SkippedAreBare(now[i])
    {
      if i < index {
        assert now[i] == es[i];
      } else if i == index {
        assert now[i] == d;
      } else if i <= index + |links| {
        assert now[i] == links[i - index - 1];
      } else {
        assert now[i] == es[i - |links|];
      }
    }
  }

  lemma TailProgress(parent: Element, index: nat, pieces: seq<Piece>, seen: set<string>, newSeen: set<string>)
    requires parent.Page? && !Skips(parent) && index < |parent.children|
    requires PiecesOf(parent.children[index].tail, pieces, seen, newSeen)
    ensures Progress(parent, seen, WithChildTail(parent, index, pieces), newSeen)
  {
    var (lead, links) := Build(pieces);
    var c := parent.children[index];
    BuildText(pieces);
    forall slug
      ensures CountAll(links, slug) == CountPieces(pieces, slug)
    {
      BuildCount(pieces, slug);
    }
    ChildProgress(parent, index, WithTail(c, lead), links, seen, newSeen);
  }

  lemma ElementStep(
    e: Element, pieces: seq<Piece>, seen: set<string>, mid: set<string>, children: seq<Element>, newSeen: set<string>)
    requires e.Page? && !Skips(e) && PiecesOf(e.text, pieces, seen, mid)
    requires Progress(WithText(e, pieces), mid, WithText(e, pieces).(children := children), newSeen)
    ensures Progress(e, seen, WithText(e, pieces).(children := children), newSeen)
  {
    TextProgress(e, pieces, seen, mid);
    ProgressChains(e, seen, WithText(e, pieces), mid, WithText(e, pieces).(children := children), newSeen);
  }

  /** A child exchanged for what it has become, and its tail replaced. */
  lemma {:induction false} ChildAndTail(
    parent: Element, index: nat, d: Element, pieces: seq<Piece>,
    seen: set<string>, mid: set<string>, later: set<string>)
    requires parent.Page? && !Skips(parent) && index < |parent.children|
    requires Progress(parent.children[index], seen, d, mid) && PiecesOf(d.tail, pieces, mid, later)
    requires parent.children[index].Link? ==> d == parent.children[index]
    ensures var (lead, links) := Build(pieces);
            Progress(parent, seen, parent.(children :=
                       parent.children[..index] + ([WithTail(d, lead)] + links + parent.children[index + 1..])), later)
  {
    var walked := parent.(children := parent.children[index := d]);
    WalkedProgress(parent, index, d, seen, mid);
    TailProgress(walked, index, pieces, mid, later);
    assert walked.children[..index] == parent.children[..index];
    assert walked.children[index + 1..] == parent.children[index + 1..];
    ProgressChains(parent, seen, walked, mid, WithChildTail(walked, index, pieces), later);
  }

  lemma ExchangeAt(done: seq<Element>, todo: seq<Element>, now: seq<Element>)
    requires todo != []
    ensures var all := done + todo;
            all[..|done|] + (now + all[|done| + 1..]) == done + now + todo[1..]
  {
  }

  lemma WalkedProgress(parent: Element, index: nat, d: Element, seen: set<string>, newSeen: set<string>)
    requires parent.Page? && !Skips(parent) && index < |parent.children|
             && Progress(parent.children[index], seen, d, newSeen)
    requires parent.children[index].Link? ==> d == parent.children[index]
    ensures Progress(parent, seen, parent.(children := parent.children[index := d]), newSeen)
  {
    ChildProgress(parent, index, d, [], seen, newSeen);
    assert parent.children[index := d] == parent.children[..index] + ([d] + [] + parent.children[index + 1..]);
  }

  // ----- The linker -----

  /** A match is better when it starts earlier, or there and is longer. */
  predicate Beats(a: Span, b: Span) {
    a.start < b.start || (a.start == b.start && a.end - a.start > b.end - b.start)
  }

  /** What a match loses by: its start, its length, or being listed behind. */
  predicate IsLater(other: Span, listedBefore: bool, best: Span) {
    || best.start < other.start
    || (best.start == other.start && other.end < best.end)
    || (best == other && !listedBefore)
  }

  datatype Best = Best(term: nat, span: Span)

  function Slugs(terms: seq<Term>): set<string> {
    set t | t in terms :: t.slug
  }

  /** A measure for the recursion: links count nothing, and are not descended into. */
  function Size(e: Element): nat {
    match e
    case Page(_, _, _, _, children) => 1 + SizeAll(children)
    case Link(_, _, _, _) => 0
  }

  function SizeAll(es: seq<Element>): nat {
    if es == [] then 0 else Size(es[0]) + SizeAll(es[1..])
  }

  lemma {:induction false} LinksHaveNoSize(links: seq<Element>, es: seq<Element>)
    requires AllLinks(links)
    ensures SizeAll(links + es) == SizeAll(es)
  {
    if links != [] {
      assert (links + es)[1..] == links[1..] + es;
      LinksHaveNoSize(links[1..], es);
    } else {
      assert links + es == es;
    }
  }

  class Linker {
    const terms: seq<Term>
    const search: Search
    const isSpace: char -> bool
    var seen: set<string>

    constructor (terms: seq<Term>, search: Search, isSpace: char -> bool)
      ensures this.terms == terms && this.search == search && this.isSpace == isSpace && seen == {}
    {
      this.terms, this.search, this.isSpace, seen := terms, search, isSpace, {};
    }

    // ----- What is linked -----

    /** The match of a term not linked yet. */
    function Match(term: nat, text: string, cursor: nat, seen: set<string>): Option<Span>
      requires term < |terms| && cursor <= |text|
    {
      if terms[term].slug in seen then None else search(terms[term], text, cursor)
    }

    predicate NoMatch(text: string, cursor: nat, seen: set<string>)
      requires cursor <= |text|
    {
      forall i :: 0 <= i < |terms| ==> Match(i, text, cursor, seen) == None
    }

    /** The first, then longest, then earliest listed match. */
    predicate IsBest(b: Best, bound: nat, text: string, cursor: nat, seen: set<string>)
      requires cursor <= |text| && bound <= |terms|
    {
      && b.term < bound && Match(b.term, text, cursor, seen) == Some(b.span)
      && forall i :: 0 <= i < bound && i != b.term && Match(i, text, cursor, seen).Some? ==>
           IsLater(Match(i, text, cursor, seen).value, i < b.term, b.span)
    }

    /** The best match among the first so many terms, if any of them matches. */
    function BestAmong(bound: nat, text: string, cursor: nat, seen: set<string>): (best: Option<Best>)
      requires cursor <= |text| && bound <= |terms|
      ensures match best
              case None => forall i :: 0 <= i < bound ==> Match(i, text, cursor, seen) == None
              case Some(b) => IsBest(b, bound, text, cursor, seen)
    {
      if bound == 0 then None
      else
        var best, found := BestAmong(bound - 1, text, cursor, seen), Match(bound - 1, text, cursor, seen);
        if found.Some? && (best.None? || Beats(found.value, best.value.span)) then Some(Best(bound - 1, found.value))
        else best
    }

    function LinkedAt(text: string, b: Best): Piece
      requires b.term < |terms| && b.span.start <= b.span.end <= |text|
    {
      Linked(terms[b.term].slug, text[b.span.start..b.span.end], terms[b.term].tooltip)
    }

    /** The best match linked, and from its end on the best match of a term not linked by then, while there is one. */
    function Greedy(text: string, cursor: nat, seen: set<string>): (seq<Piece>, set<string>)
      requires cursor <= |text|
      decreases |Slugs(terms) - seen|
    {
      match BestAmong(|terms|, text, cursor, seen)
      case None => (Before(text, cursor, |text|), seen)
      case Some(b) =>
        FewerLeft(terms, seen, b.term);
        var (rest, newSeen) := Greedy(text, b.span.end, seen + {terms[b.term].slug});
        (Before(text, cursor, b.span.start) + [LinkedAt(text, b)] + rest, newSeen)
    }

    /** Nothing but space, so not looked at. */
    predicate IsBlank(text: string) {
      forall i :: 0 <= i < |text| ==> isSpace(text[i])
    }

    /** The pieces of a text, and what is seen after it. */
    function LinkText(text: string, seen: set<string>): (seq<Piece>, set<string>) {
      if IsBlank(text) then (Before(text, 0, |text|), seen) else Greedy(text, 0, seen)
    }

    /** An element in document order: its text, and then each child and the text after it. */
    function LinkElement(e: Element, seen: set<string>): (r: (Element, set<string>))
      ensures r.0.tail == e.tail && r.0.Page? == e.Page?
      decreases Size(e), 0, 0
    {
      if Skips(e) then (e, seen)
      else
        var (pieces, mid) := LinkText(e.text, seen);
        var start := WithText(e, pieces);
        LinksHaveNoSize(Build(pieces).1, e.children);
        var (children, newSeen) := LinkChildren(start.children, mid);
        (start.(children := children), newSeen)
    }

    function LinkChildren(es: seq<Element>, seen: set<string>): (seq<Element>, set<string>)
      decreases SizeAll(es), 1, |es|
    {
      if es == [] then ([], seen)
      else
        var (child, mid) := LinkElement(es[0], seen);
        var (pieces, later) := LinkText(es[0].tail, mid);
        var (rest, newSeen) := LinkChildren(es[1..], later);
        ([WithTail(child, Build(pieces).0)] + Build(pieces).1 + rest, newSeen)
    }

    // ----- How it is found -----

    method FindBest(text: string, cursor: nat) returns (best: Option<Best>)
      requires cursor <= |text|
      ensures match best
              case None => NoMatch(text, cursor, seen)
              case Some(b) => IsBest(b, |terms|, text, cursor, seen)
      ensures best == BestAmong(|terms|, text, cursor, seen)
    {
      best := None;
      var i := 0;
      while i < |terms|
        invariant i <= |terms| && best == BestAmong(i, text, cursor, seen)
      {
        if terms[i].slug !in seen {
          var found := search(terms[i], text, cursor);
          if found.Some? && (best.None? || Beats(found.value, best.value.span)) {
            best := Some(Best(i, found.value));
          }
        }
        i := i + 1;
      }
    }

    /** The greedy choice begins with the best match that is found. */
    lemma {:induction false} GreedyNext(text: string, cursor: nat, seen: set<string>, b: Best)
      requires cursor <= |text| && BestAmong(|terms|, text, cursor, seen) == Some(b)
      ensures cursor <= b.span.start <= b.span.end <= |text| && terms[b.term].slug !in seen
      ensures var (rest, newSeen) := Greedy(text, b.span.end, seen + {terms[b.term].slug});
              Greedy(text, cursor, seen) == (Before(text, cursor, b.span.start) + [LinkedAt(text, b)] + rest, newSeen)
    {
    }

    /** The pieces so far, and going on greedily from the cursor, are the whole greedy choice. */
    ghost predicate Linking(text: string, cursor: nat, pieces: seq<Piece>, was: set<string>, seen: set<string>)
      requires cursor <= |text|
    {
      && Greedy(text, 0, was) == (pieces + Greedy(text, cursor, seen).0, Greedy(text, cursor, seen).1)
      && Alternate(pieces)
      && (if pieces == [] then cursor == 0 && seen == was else pieces[|pieces| - 1].Linked?)
    }

    lemma {:induction false} LinkingNext(
      text: string, cursor: nat, pieces: seq<Piece>, was: set<string>, seen: set<string>, b: Best)
      requires cursor <= |text| && Linking(text, cursor, pieces, was, seen)
      requires BestAmong(|terms|, text, cursor, seen) == Some(b)
      ensures cursor <= b.span.start <= b.span.end <= |text|
      ensures Linking(text, b.span.end, pieces + Before(text, cursor, b.span.start) + [LinkedAt(text, b)], was,
                      seen + {terms[b.term].slug})
    {
      GreedyNext(text, cursor, seen, b);
      var plain, link := Before(text, cursor, b.span.start), [LinkedAt(text, b)];
      var rest := Greedy(text, b.span.end, seen + {terms[b.term].slug}).0;
      assert pieces + (plain + link + rest) == pieces + plain + link + rest;
      AlternateGrows(text, cursor, b.span.start, pieces, LinkedAt(text, b));
    }

    /** The pieces of a text, or none when there is nothing to link; what is linked is seen from then on. */
    method Pieces(text: string) returns (pieces: seq<Piece>)
      modifies this
      ensures LinkText(text, old(seen)) == (if pieces == [] then Before(text, 0, |text|) else pieces, seen)
      ensures Alternate(pieces) && (|pieces| == 1 ==> pieces[0].Linked?)
    {
      pieces := [];
      if IsBlank(text) {
        return;
      }
      var cursor: nat := 0;
      var more := true;
      assert [] + Greedy(text, 0, seen).0 == Greedy(text, 0, seen).0;
      while more
        invariant cursor <= |text| && Linking(text, cursor, pieces, old(seen), seen)
        invariant !more ==> BestAmong(|terms|, text, cursor, seen) == None
        decreases more, |Slugs(terms) - seen|
      {
        pieces, cursor, more := LinkNext(text, cursor, pieces, old(seen));
      }
      if pieces == [] {
        assert [] + Before(text, 0, |text|) == Before(text, 0, |text|);
        return;
      }
      AlternateGrows(text, cursor, |text|, pieces, pieces[|pieces| - 1]);
      assert text[cursor..] == text[cursor..|text|];
      if cursor < |text| {
        pieces := pieces + [Plain(text[cursor..])];
      } else {
        assert pieces + [] == pieces;
      }
    }

    /** One turn of the loop: the best match linked, or the end. */
    method LinkNext(text: string, cursor: nat, pieces: seq<Piece>, ghost was: set<string>)
      returns (newPieces: seq<Piece>, newCursor: nat, more: bool)
      requires cursor <= |text| && Linking(text, cursor, pieces, was, seen)
      modifies this
      ensures newCursor <= |text| && Linking(text, newCursor, newPieces, was, seen)
      ensures if more then |Slugs(terms) - seen| < |Slugs(terms) - old(seen)|
              else seen == old(seen) && BestAmong(|terms|, text, newCursor, seen) == None
    {
      var best := FindBest(text, cursor);
      match best {
        case None =>
          return pieces, cursor, false;
        case Some(b) =>
          LinkingNext(text, cursor, pieces, was, seen, b);
          FewerLeft(terms, seen, b.term);
          var term := terms[b.term];
          newPieces := pieces;
          if b.span.start > cursor {
            newPieces := newPieces + [Plain(text[cursor..b.span.start])];
          } else {
            assert pieces + [] == pieces;
          }
          newPieces := newPieces + [Linked(term.slug, text[b.span.start..b.span.end], term.tooltip)];
          seen := seen + {term.slug};
          newCursor, more := b.span.end, true;
      }
    }

    /** Links an element and everything in it, inserting children while going over them. */
    method Walk(element: Element) returns (e: Element)
      modifies this
      ensures (e, seen) == LinkElement(element, old(seen))
      decreases Size(element), 0
    {
      if Skips(element) {
        return element;
      }
      var at;
      e, at := Replace(element, None);
      ghost var start, mid := e.children, seen;
      LinksHaveNoSize(Build(LinkText(element.text, old(seen)).0).1, element.children);
      var idx: nat := 0;
      assert start[..0] == [] && start[0..] == start;
      assert [] + LinkChildren(start, mid).0 == LinkChildren(start, mid).0;
      while idx < |e.children|
        invariant e.Page? && idx <= |e.children|
        invariant e == WithText(element, LinkText(element.text, old(seen)).0).(children := e.children)
        invariant IsWalked(start, mid, e.children[..idx], e.children[idx..], seen)
        invariant SizeAll(e.children[idx..]) < Size(element)
        decreases |e.children| - idx
      {
        ghost var done, todo, was := e.children[..idx], e.children[idx..], seen;
        assert todo[0] == e.children[idx] && todo[1..] == e.children[idx + 1..];
        e, idx := WalkChild(e, idx);
        WalkedNext(start, mid, done, todo, was);
      }
      assert e.children[idx..] == [] && e.children[..idx] == e.children == e.children + [];
    }

    /** What is done, and linking what is still to do, is linking all of it. */
    ghost predicate IsWalked(
      start: seq<Element>, mid: set<string>, done: seq<Element>, todo: seq<Element>, seen: set<string>)
    {
      LinkChildren(start, mid) == (done + LinkChildren(todo, seen).0, LinkChildren(todo, seen).1)
    }

    /** What a child becomes, with the links after it. */
    function LinkChild(c: Element, seen: set<string>): (r: (seq<Element>, set<string>))
      ensures r.0 != []
    {
      var (child, mid) := LinkElement(c, seen);
      var (pieces, later) := LinkText(c.tail, mid);
      ([WithTail(child, Build(pieces).0)] + Build(pieces).1, later)
    }

    lemma WalkedNext(start: seq<Element>, mid: set<string>, done: seq<Element>, todo: seq<Element>, seen: set<string>)
      requires todo != [] && IsWalked(start, mid, done, todo, seen)
      ensures IsWalked(start, mid, done + LinkChild(todo[0], seen).0, todo[1..], LinkChild(todo[0], seen).1)
    {
      var (now, later) := LinkChild(todo[0], seen);
      ConcatAssociates(done, now, LinkChildren(todo[1..], later).0);
    }

    /** One turn of the loop over the children: the child is walked, and then its tail replaced. */
    method WalkChild(parent: Element, idx: nat) returns (p: Element, next: nat)
      requires parent.Page? && idx < |parent.children|
      modifies this
      ensures p.Page? && p == parent.(children := p.children)
      ensures seen == LinkChild(parent.children[idx], old(seen)).1
      ensures next <= |p.children| && p.children[next..] == parent.children[idx + 1..]
      ensures p.children[..next] == parent.children[..idx] + LinkChild(parent.children[idx], old(seen)).0
      decreases Size(parent.children[idx]), 1
    {
      var child := Walk(parent.children[idx]);
      ghost var was := seen;
      var walked := parent.(children := parent.children[idx := child]);
      var at;
      p, at := Replace(walked, Some(idx));
      next := at + 1;
      ghost var (lead, links) := Build(LinkText(child.tail, was).0);
      assert walked.children[..idx] == parent.children[..idx];
      assert walked.children[idx + 1..] == parent.children[idx + 1..];
      assert p.children == parent.children[..idx] + ([WithTail(child, lead)] + links) + parent.children[idx + 1..];
    }

    /** Replaces the parent's text, or the tail of one of its children; the result says where the last insertion is. */
    method Replace(parent: Element, index: Option<nat>) returns (p: Element, at: int)
      requires parent.Page? && HasPlace(parent, index)
      modifies this
      ensures var (pieces, newSeen) := LinkText(TextAt(parent, index), old(seen));
              p == Replaced(parent, index, pieces) && at == Place(index) + |Build(pieces).1| && seen == newSeen
    {
      var pieces := Pieces(TextAt(parent, index));
      if pieces == [] {
        ReplacedByItself(parent, index);
        return parent, Place(index);
      }
      p, at := PutPieces(parent, index, pieces);
    }

    method PutPieces(parent: Element, index: Option<nat>, pieces: seq<Piece>) returns (p: Element, at: int)
      requires parent.Page? && HasPlace(parent, index)
      requires pieces != [] && Alternate(pieces) && (|pieces| == 1 ==> pieces[0].Linked?)
      ensures p == Replaced(parent, index, pieces) && at == Place(index) + |Build(pieces).1|
    {
      var start := if pieces[0].Plain? then 1 else 0;
      var lead := if pieces[0].Plain? then pieces[0].s else "";
      BuildStart(pieces[..start]);
      var children;
      match index {
        case None =>
          children, at := InsertAll(parent.children, -1, pieces, start, lead);
          PutFirst(parent.children, Build(pieces).1, children);
          p := parent.(text := lead, children := children);
        case Some(i) =>
          var d := WithTail(parent.children[i], lead);
          children, at := InsertAll(parent.children[i := d], i, pieces, start, lead);
          PutAfter(parent.children, i, d, Build(pieces).1, children);
          p := parent.(children := children);
      }
    }

    /** The loop over the pieces after the lead: links go in one after the other, text to the end of the last. */
    method InsertAll(given: seq<Element>, first: int, pieces: seq<Piece>, start: nat, lead: string)
      returns (children: seq<Element>, at: int)
      requires -1 <= first < |given| && start < |pieces| && Alternate(pieces)
      requires start == (if pieces[0].Plain? then 1 else 0) && Build(pieces[..start]) == (lead, [])
      ensures Inserted(children, given[..first + 1], pieces, lead, given[first + 1..])
      ensures at == first + |Build(pieces).1|
    {
      ghost var head, rest := given[..first + 1], given[first + 1..];
      children, at := given, first;
      var k := start;
      while k < |pieces|
        invariant start <= k <= |pieces|
        invariant Inserted(children, head, pieces[..k], lead, rest) && at == first + |Build(pieces[..k]).1|
        invariant at == first ==> k == start
      {
        assert pieces[..k] + [pieces[k]] == pieces[..k + 1];
        children, at := PutPiece(children, at, pieces[k], head, pieces[..k], lead, rest);
        k := k + 1;
      }
      assert pieces[..k] == pieces;
    }

    method PutPiece(
      given: seq<Element>, last: int, piece: Piece,
      ghost head: seq<Element>, ghost before: seq<Piece>, ghost lead: string, ghost rest: seq<Element>)
      returns (children: seq<Element>, at: int)
      requires Inserted(given, head, before, lead, rest) && last == |head| - 1 + |Build(before).1|
      requires piece.Plain? ==> last >= |head|
      ensures Inserted(children, head, before + [piece], lead, rest)
      ensures at == |head| - 1 + |Build(before + [piece]).1| && at >= |head|
    {
      InsertedMore(given, head, before, piece, lead, rest);
      children, at := given, last;
      match piece {
        case Plain(s) =>
          children := children[at := WithTail(children[at], children[at].tail + s)];
        case Linked(slug, words, tooltip) =>
          at := at + 1;
          children := children[..at] + [Link(slug, words, tooltip, "")] + children[at..];
      }
    }

    // ----- What it keeps -----

    /** The greedy pieces make up the text from the cursor, and link each newly seen slug once. */
    lemma {:induction false} GreedyPieces(text: string, cursor: nat, seen: set<string>)
      requires cursor <= |text|
      ensures PiecesOf(text[cursor..], Greedy(text, cursor, seen).0, seen, Greedy(text, cursor, seen).1)
      decreases |Slugs(terms) - seen|
    {
      match BestAmong(|terms|, text, cursor, seen)
      case None => PlainPieces(text, cursor, |text|, seen);
      case Some(b) =>
        GreedyNext(text, cursor, seen, b);
        FewerLeft(terms, seen, b.term);
        GreedyPieces(text, b.span.end, seen + {terms[b.term].slug});
        var (rest, newSeen) := Greedy(text, b.span.end, seen + {terms[b.term].slug});
        PiecesJoin(text, cursor, b.span, LinkedAt(text, b), rest, seen, newSeen);
    }

    lemma TextPieces(text: string, seen: set<string>)
      ensures PiecesOf(text, LinkText(text, seen).0, seen, LinkText(text, seen).1)
    {
      assert text[0..] == text;
      if IsBlank(text) {
        PlainPieces(text, 0, |text|, seen);
      } else {
        GreedyPieces(text, 0, seen);
      }
    }

    /** Linking an element: taking the links out again gives it back, and each newly seen slug is linked once. */
    lemma {:induction false} ElementProgress(e: Element, seen: set<string>)
      ensures Progress(e, seen, LinkElement(e, seen).0, LinkElement(e, seen).1)
      decreases Size(e), 0, 0
    {
      if Skips(e) {
        NoProgress(e, seen);
      } else {
        var (pieces, mid) := LinkText(e.text, seen);
        var start := WithText(e, pieces);
        TextPieces(e.text, seen);
        LinksHaveNoSize(Build(pieces).1, e.children);
        assert start.children == [] + start.children;
        ChildrenProgress(start, [], start.children, mid);
        var (children, newSeen) := LinkChildren(start.children, mid);
        assert [] + children == children;
        ElementStep(e, pieces, seen, mid, children, newSeen);
      }
    }

    lemma {:induction false} ChildrenProgress(
      parent: Element, done: seq<Element>, todo: seq<Element>, seen: set<string>)
      requires parent.Page? && !Skips(parent) && parent.children == done + todo
      ensures var (rest, newSeen) := LinkChildren(todo, seen);
              Progress(parent, seen, parent.(children := done + rest), newSeen)
      decreases SizeAll(todo), 1, |todo|
    {
      if todo == [] {
        assert done + [] == done + todo;
        NoProgress(parent, seen);
      } else {
        var (now, later) := LinkChild(todo[0], seen);
        var next := parent.(children := done + now + todo[1..]);
        ElementProgress(todo[0], seen);
        ChildStep(parent, done, todo, seen);
        ChildrenProgress(next, done + now, todo[1..], later);
        var (rest, newSeen) := LinkChildren(todo[1..], later);
        ConcatAssociates(done, now, rest);
        ProgressChains(parent, seen, next, later, parent.(children := done + now + rest), newSeen);
      }
    }

    lemma {:induction false} ChildStep(parent: Element, done: seq<Element>, todo: seq<Element>, seen: set<string>)
      requires parent.Page? && !Skips(parent) && parent.children == done + todo && todo != []
      requires Progress(todo[0], seen, LinkElement(todo[0], seen).0, LinkElement(todo[0], seen).1)
      ensures var (now, later) := LinkChild(todo[0], seen);
              Progress(parent, seen, parent.(children := done + now + todo[1..]), later)
    {
      var i := |done|;
      var (child, mid) := LinkElement(todo[0], seen);
      var (pieces, later) := LinkText(todo[0].tail, mid);
      TextPieces(child.tail, mid);
      ChildAndTail(parent, i, child, pieces, seen, mid, later);
      ExchangeAt(done, todo, [WithTail(child, Build(pieces).0)] + Build(pieces).1);
    }

    // ----- What the links are -----

    /** A match of a listed term in some text that is not blank: its words are what matched, its tooltip the term's. */
    ghost predicate IsTermLink(slug: string, words: string, tooltip: string) {
      exists t, text, cursor ::
        && 0 <= t < |terms| && 0 <= cursor <= |text| && !IsBlank(text)
        && search(terms[t], text, cursor).Some? && terms[t].slug == slug && terms[t].tooltip == tooltip
        && words == text[search(terms[t], text, cursor).value.start..search(terms[t], text, cursor).value.end]
    }

    ghost predicate OnlyTerms(e: Element) {
      match e
      case Link(slug, words, tooltip, _) => IsTermLink(slug, words, tooltip)
      case Page(_, _, _, _, children) => AllOnlyTerms(children)
    }

    ghost predicate AllOnlyTerms(es: seq<Element>) {
      forall i :: 0 <= i < |es| ==> OnlyTerms(es[i])
    }

    ghost predicate PiecesOnlyTerms(pieces: seq<Piece>) {
      forall i :: 0 <= i < |pieces| && pieces[i].Linked? ==>
                    IsTermLink(pieces[i].slug, pieces[i].words, pieces[i].tooltip)
    }

    lemma {:induction false} GreedyOnlyTerms(text: string, cursor: nat, seen: set<string>)
      requires cursor <= |text| && !IsBlank(text)
      ensures PiecesOnlyTerms(Greedy(text, cursor, seen).0)
      decreases |Slugs(terms) - seen|
    {
      match BestAmong(|terms|, text, cursor, seen)
      case None =>
      case Some(b) =>
        GreedyNext(text, cursor, seen, b);
        FewerLeft(terms, seen, b.term);
        GreedyOnlyTerms(text, b.span.end, seen + {terms[b.term].slug});
        var l := LinkedAt(text, b);
        assert search(terms[b.term], text, cursor) == Some(b.span);
        assert IsTermLink(l.slug, l.words, l.tooltip);
    }

    lemma {:induction false} BuildOnlyTerms(pieces: seq<Piece>)
      requires PiecesOnlyTerms(pieces)
      ensures AllOnlyTerms(Build(pieces).1)
    {
      if pieces != [] {
        BuildOnlyTerms(pieces[..|pieces| - 1]);
      }
    }

    lemma TextOnlyTerms(text: string, seen: set<string>)
      ensures AllOnlyTerms(Build(LinkText(text, seen).0).1)
    {
      if !IsBlank(text) {
        GreedyOnlyTerms(text, 0, seen);
      }
      BuildOnlyTerms(LinkText(text, seen).0);
    }

    /** Linking puts in links of listed terms only. */
    lemma {:induction false} ElementOnlyTerms(e: Element, seen: set<string>)
      requires OnlyTerms(e)
      ensures OnlyTerms(LinkElement(e, seen).0)
      decreases Size(e), 0, 0
    {
      if !Skips(e) {
        var (pieces, mid) := LinkText(e.text, seen);
        LinksHaveNoSize(Build(pieces).1, e.children);
        TextOnlyTerms(e.text, seen);
        ChildrenOnlyTerms(WithText(e, pieces).children, mid);
      }
    }

    lemma {:induction false} ChildrenOnlyTerms(es: seq<Element>, seen: set<string>)
      requires AllOnlyTerms(es)
      ensures AllOnlyTerms(LinkChildren(es, seen).0)
      decreases SizeAll(es), 1, |es|
    {
      if es != [] {
        var (child, mid) := LinkElement(es[0], seen);
        var (pieces, later) := LinkText(es[0].tail, mid);
        ElementOnlyTerms(es[0], seen);
        TextOnlyTerms(es[0].tail, mid);
        ChildrenOnlyTerms(es[1..], later);
      }
    }

    lemma {:induction false} BareOnlyTerms(e: Element)
      requires NoLinks(e)
      ensures OnlyTerms(e)
      decreases e
    {
      forall i | 0 <= i < |e.children|
        ensures OnlyTerms(e.children[i])
      {
        BareOnlyTerms(e.children[i]);
      }
    }

    // ----- What it does not miss -----

    /** Looked at and without a match: nothing but space, or no match of the term from its start on. */
    predicate IsSearched(text: string, term: nat)
      requires term < |terms|
    {
      IsBlank(text) || search(terms[term], text, 0) == None
    }

    /**
     In document order up to the first link of the term, and to the end if there is none: every text that got no link
     has no match of it, the texts of skipped elements aside.
     */
    predicate Exhausted(e: Element, term: nat)
      requires term < |terms|
    {
      e.Page? && e.tag !in SKIP_TAGS && !e.skip ==>
        (StartsLinked(e.children) || IsSearched(e.text, term)) && AllExhausted(e.children, term)
    }

    predicate AllExhausted(es: seq<Element>, term: nat)
      requires term < |terms|
    {
      es == [] ||
      (&& Exhausted(es[0], term)
       && (|| Count(es[0], terms[term].slug) > 0
           || (&& (es[0].Page? ==> StartsLinked(es[1..]) || IsSearched(es[0].tail, term))
               && AllExhausted(es[1..], term))))
    }

    lemma TextIsSearched(text: string, seen: set<string>, term: nat)
      requires term < |terms| && terms[term].slug !in seen && Build(LinkText(text, seen).0).1 == []
      ensures Build(LinkText(text, seen).0).0 == text && IsSearched(text, term)
    {
      if !IsBlank(text) {
        match BestAmong(|terms|, text, 0, seen)
        case None => assert Match(term, text, 0, seen) == None;
        case Some(b) =>
          GreedyNext(text, 0, seen, b);
          var rest := Greedy(text, b.span.end, seen + {terms[b.term].slug}).0;
          LinkIsBuilt(Before(text, 0, b.span.start), LinkedAt(text, b), rest);
          assert false;
      }
      BuildPlain(text);
    }

    /** A term is linked at its first match: no text before its link that got no link has one. */
    lemma {:induction false} ElementExhausted(e: Element, seen: set<string>, term: nat)
      requires term < |terms| && terms[term].slug !in seen
      ensures Exhausted(LinkElement(e, seen).0, term)
      decreases Size(e), 0, 0
    {
      if e.Page? && !Skips(e) {
        var (pieces, mid) := LinkText(e.text, seen);
        var (lead, links) := Build(pieces);
        var start := WithText(e, pieces);
        var (children, newSeen) := LinkChildren(start.children, mid);
        LinksHaveNoSize(links, e.children);
        TextPieces(e.text, seen);
        if terms[term].slug in mid {
          BuildCount(pieces, terms[term].slug);
          LinkedThere(links, e.children, mid, term);
        } else {
          ChildrenExhausted(start.children, mid, term);
        }
        if links == [] {
          TextIsSearched(e.text, seen, term);
        } else {
          assert start.children[0] == links[0];
        }
      }
    }

    lemma {:induction false} ChildrenExhausted(es: seq<Element>, seen: set<string>, term: nat)
      requires term < |terms| && terms[term].slug !in seen
      ensures AllExhausted(LinkChildren(es, seen).0, term)
      decreases SizeAll(es), 1, |es|
    {
      if es != [] {
        var slug := terms[term].slug;
        var (child, mid) := LinkElement(es[0], seen);
        var (pieces, later) := LinkText(es[0].tail, mid);
        var (lead, links) := Build(pieces);
        ElementProgress(es[0], seen);
        ElementExhausted(es[0], seen, term);
        if slug !in mid {
          TextPieces(es[0].tail, mid);
          BuildCount(pieces, slug);
          if slug !in later {
            ChildrenExhausted(es[1..], later, term);
          }
          if links == [] {
            TextIsSearched(es[0].tail, mid, term);
          }
        }
        ExhaustedJoins(WithTail(child, lead), links, LinkChildren(es[1..], later).0, term);
      }
    }

    /** What follows links need not be exhausted when one of them, or what they come after, has the term's link. */
    lemma {:induction false} ExhaustedJoins(child: Element, links: seq<Element>, rest: seq<Element>, term: nat)
      requires term < |terms| && AllLinks(links) && Exhausted(child, term)
      requires || Count(child, terms[term].slug) > 0
               || (child.Page? && links == [] ==> IsSearched(child.tail, term))
      requires || Count(child, terms[term].slug) + CountAll(links, terms[term].slug) > 0
               || AllExhausted(rest, term)
      ensures AllExhausted([child] + links + rest, term)
      decreases |links|
    {
      assert ([child] + links + rest)[1..] == links + rest;
      if links == [] {
        assert links + rest == rest;
      } else {
        assert [links[0]] + links[1..] == links;
        if Count(child, terms[term].slug) == 0 {
          ExhaustedJoins(links[0], links[1..], rest, term);
        }
      }
    }

    /** Going over links that have the term's link among them, before its first match is looked for any further. */
    lemma {:induction false} LinkedThere(links: seq<Element>, rest: seq<Element>, seen: set<string>, term: nat)
      requires term < |terms| && AllLinks(links) && CountAll(links, terms[term].slug) > 0
      ensures AllExhausted(LinkChildren(links + rest, seen).0, term)
      decreases |links|
    {
      var es := links + rest;
      assert es[1..] == links[1..] + rest;
      var (pieces, later) := LinkText(es[0].tail, seen);
      var (lead, more) := Build(pieces);
      if Count(links[0], terms[term].slug) == 0 {
        LinkedThere(links[1..], rest, later, term);
      }
      ExhaustedJoins(WithTail(links[0], lead), more, LinkChildren(es[1..], later).0, term);
    }

    /** Links a page, or leaves it alone when it is the glossary's own. */
    method Run(root: Element, onGlossaryPage: bool) returns (page: Element)
      requires NoLinks(root)
      modifies this
      ensures page == if onGlossaryPage then root else LinkElement(root, {}).0
      ensures Strip(page) == root && Visible(page) == Visible(root)
      ensures forall slug :: Count(page, slug) <= 1
      ensures SkippedAreBare(page)
      ensures !onGlossaryPage ==> OnlyTerms(page) && forall t :: 0 <= t < |terms| ==> Exhausted(page, t)
    {
      NoLinksFacts(root);
      StripKeepsText(root);
      page := root;
      if !onGlossaryPage {
        seen := {};
        page := Walk(root);
        ElementProgress(root, {});
        StripKeepsText(page);
        BareOnlyTerms(root);
        ElementOnlyTerms(root, {});
        forall t | 0 <= t < |terms|
          ensures Exhausted(page, t)
        {
          ElementExhausted(root, {}, t);
        }
      }
    }
  }

  predicate StartsLinked(es: seq<Element>) {
    es != [] && es[0].Link?
  }

  /** What is replaced is the text before the children, or the tail of one of them. */
  predicate HasPlace(parent: Element, index: Option<nat>)
    requires parent.Page?
  {
    index.Some? ==> index.value < |parent.children|
  }

  function Place(index: Option<nat>): int {
    if index.Some? then index.value else -1
  }

  /** The parent after the pieces have gone into its text, or into the tail of a child. */
  function Replaced(parent: Element, index: Option<nat>, pieces: seq<Piece>): Element
    requires parent.Page? && HasPlace(parent, index)
  {
    match index
    case None => WithText(parent, pieces)
    case Some(i) => WithChildTail(parent, i, pieces)
  }

  function TextAt(parent: Element, index: Option<nat>): string
    requires parent.Page? && HasPlace(parent, index)
  {
    match index
    case None => parent.text
    case Some(i) => parent.children[i].tail
  }

  lemma ReplacedByItself(parent: Element, index: Option<nat>)
    requires parent.Page? && HasPlace(parent, index)
    ensures var plain := Before(TextAt(parent, index), 0, |TextAt(parent, index)|);
            Replaced(parent, index, plain) == parent && Build(plain).1 == []
  {
    BuildPlain(TextAt(parent, index));
    match index
    case None =>
    case Some(i) =>
      assert parent.children == parent.children[..i] + ([parent.children[i]] + [] + parent.children[i + 1..]);
  }

  lemma BuildPlain(text: string)
    ensures Build(Before(text, 0, |text|)) == (text, [])
  {
    BuildStart(Before(text, 0, |text|));
    assert text[0..|text|] == text;
  }

  /** A linked piece is built into a link, whatever stands around it. */
  lemma {:induction false} LinkIsBuilt(before: seq<Piece>, l: Piece, rest: seq<Piece>)
    requires l.Linked?
    ensures Build(before + [l] + rest).1 != []
  {
    var all := before + [l] + rest;
    if rest == [] {
      assert all[..|all| - 1] == before && all[|all| - 1] == l;
    } else {
      assert all[..|all| - 1] == before + [l] + rest[..|rest| - 1];
      LinkIsBuilt(before, l, rest[..|rest| - 1]);
    }
  }

  lemma NoProgress(e: Element, seen: set<string>)
    ensures Progress(e, seen, e, seen)
  {
  }

  lemma {:induction false} BuildStart(pieces: seq<Piece>)
    requires pieces == [] || (|pieces| == 1 && pieces[0].Plain?)
    ensures Build(pieces) == (if pieces == [] then "" else pieces[0].s, [])
  {
    if |pieces| == 1 {
      assert pieces[..0] == [];
      assert "" + pieces[0].s == pieces[0].s;
    }
  }

  /** The links built so far stand between what was before them and what was after. */
  predicate Inserted(children: seq<Element>, head: seq<Element>, pieces: seq<Piece>, lead: string, rest: seq<Element>) {
    Build(pieces).0 == lead && children == head + Build(pieces).1 + rest
  }

  /** One more piece goes where the loop puts it: a link after the last one, and text into the last one's tail. */
  lemma {:induction false} InsertedMore(
    children: seq<Element>, head: seq<Element>, pieces: seq<Piece>, p: Piece, lead: string, rest: seq<Element>)
    requires Inserted(children, head, pieces, lead, rest)
    ensures var after := |head| + |Build(pieces).1|;
            && after <= |children|
            && match p
               case Linked(slug, words, tooltip) =>
                 Inserted(children[..after] + [Link(slug, words, tooltip, "")] + children[after..],
                          head, pieces + [p], lead, rest)
               case Plain(s) =>
                 Build(pieces).1 != [] ==>
                   Inserted(children[after - 1 := WithTail(children[after - 1], children[after - 1].tail + s)],
                            head, pieces + [p], lead, rest)
  {
    var links := Build(pieces).1;
    var n := |links|;
    assert (pieces + [p])[..|pieces|] == pieces;
    match p
    case Linked(slug, words, tooltip) =>
      InsertedAfter(children, head, links, Link(slug, words, tooltip, ""), rest);
    case Plain(s) =>
      if n > 0 {
        ReplacedLast(children, head, links, WithTail(links[n - 1], links[n - 1].tail + s), rest);
      }
  }

  lemma InsertedAfter(all: seq<Element>, head: seq<Element>, links: seq<Element>, l: Element, rest: seq<Element>)
    requires all == head + links + rest
    ensures var n := |head| + |links|;
            all[..n] + [l] + all[n..] == head + (links + [l]) + rest
  {
    var n := |head| + |links|;
    assert all[..n] == head + links && all[n..] == rest;
  }

  lemma ReplacedLast(all: seq<Element>, head: seq<Element>, links: seq<Element>, last: Element, rest: seq<Element>)
    requires all == head + links + rest && links != []
    ensures var n := |head| + |links|;
            all[n - 1] == links[|links| - 1] && all[n - 1 := last] == head + (links[..|links| - 1] + [last]) + rest
  {
  }

  lemma PutFirst(given: seq<Element>, links: seq<Element>, children: seq<Element>)
    requires AllLinks(links) && children == given[..0] + links + given[0..]
    ensures children == links + given && children[|links|..] == given
    ensures forall i :: 0 <= i < |links| ==> children[i].Link?
  {
  }

  lemma PutAfter(given: seq<Element>, i: nat, d: Element, links: seq<Element>, children: seq<Element>)
    requires i < |given| && children == given[i := d][..i + 1] + links + given[i := d][i + 1..]
    ensures children == given[..i] + ([d] + links + given[i + 1..]) && children[i + 1 + |links|..] == given[i + 1..]
  {
    assert given[i := d][..i + 1] == given[..i] + [d] && given[i := d][i + 1..] == given[i + 1..];
  }

  lemma AlternateGrows(text: string, cursor: nat, start: nat, pieces: seq<Piece>, l: Piece)
    requires cursor <= start <= |text| && l.Linked? && Alternate(pieces)
             && (pieces == [] || pieces[|pieces| - 1].Linked?)
    ensures Alternate(pieces + Before(text, cursor, start)) && Alternate(pieces + Before(text, cursor, start) + [l])
  {
  }

  lemma FewerLeft(terms: seq<Term>, seen: set<string>, k: nat)
    requires k < |terms| && terms[k].slug !in seen
    ensures |Slugs(terms) - (seen + {terms[k].slug})| < |Slugs(terms) - seen|
  {
    assert terms[k] in terms;
    assert Slugs(terms) - seen == (Slugs(terms) - (seen + {terms[k].slug})) + {terms[k].slug};
  }

  /** A plain piece is followed by a linked one. */
  predicate Alternate(pieces: seq<Piece>) {
    forall i :: 0 <= i < |pieces| - 1 && pieces[i].Plain? ==> pieces[i + 1].Linked?
  }

  lemma {:induction false} TextGrows(pieces: seq<Piece>, p: Piece)
    ensures TextOf(pieces + [p]) == TextOf(pieces) + PieceText(p)
  {
    assert (pieces + [p])[..|pieces|] == pieces;
  }

  lemma {:induction false} CountGrows(pieces: seq<Piece>, p: Piece, slug: string)
    ensures CountPieces(pieces + [p], slug)
            == CountPieces(pieces, slug) + (if p.Linked? && p.slug == slug then 1 else 0)
  {
    assert (pieces + [p])[..|pieces|] == pieces;
  }

  /** The plain stretch before a match, if any. */
  function Before(text: string, cursor: nat, start: nat): seq<Piece>
    requires cursor <= start <= |text|
  {
    if start > cursor then [Plain(text[cursor..start])] else []
  }

  lemma PlainPieces(text: string, cursor: nat, start: nat, seen: set<string>)
    requires cursor <= start <= |text|
    ensures PiecesOf(text[cursor..start], Before(text, cursor, start), seen, seen)
  {
    if cursor < start {
      TextGrows([], Plain(text[cursor..start]));
      assert [] + [Plain(text[cursor..start])] == [Plain(text[cursor..start])];
      assert TextOf([]) + text[cursor..start] == text[cursor..start];
      forall slug
        ensures CountPieces([Plain(text[cursor..start])], slug) == 0
      {
        CountGrows([], Plain(text[cursor..start]), slug);
      }
    }
  }

  lemma {:induction false} TextJoins(a: seq<Piece>, b: seq<Piece>)
    ensures TextOf(a + b) == TextOf(a) + TextOf(b)
    ensures forall slug :: CountPieces(a + b, slug) == CountPieces(a, slug) + CountPieces(b, slug)
    decreases |b|
  {
    if b == [] {
      assert a + b == a;
    } else {
      assert (a + b)[..|a + b| - 1] == a + b[..|b| - 1];
      TextJoins(a, b[..|b| - 1]);
      ConcatAssociates(TextOf(a), TextOf(b[..|b| - 1]), PieceText(b[|b| - 1]));
    }
  }

  /** A stretch before a link, the link, and the pieces of what comes after it. */
  lemma PiecesJoin(
    text: string, cursor: nat, span: Span, l: Piece, rest: seq<Piece>, seen: set<string>, newSeen: set<string>)
    requires cursor <= span.start <= span.end <= |text|
    requires l.Linked? && l.words == text[span.start..span.end] && l.slug !in seen
    requires PiecesOf(text[span.end..], rest, seen + {l.slug}, newSeen)
    ensures PiecesOf(text[cursor..], Before(text, cursor, span.start) + [l] + rest, seen, newSeen)
  {
    var plain := Before(text, cursor, span.start);
    PlainPieces(text, cursor, span.start, seen);
    StretchesJoin(text, cursor, span.start, span.end);
    PiecesAround(text[cursor..span.start], plain, l, text[span.end..], rest, seen, newSeen);
  }

  lemma StretchesJoin(text: string, a: nat, b: nat, c: nat)
    requires a <= b <= c <= |text|
    ensures text[a..] == text[a..b] + text[b..c] + text[c..]
  {
  }

  lemma PiecesAround(
    before: string, plain: seq<Piece>, l: Piece, after: string, rest: seq<Piece>,
    seen: set<string>, newSeen: set<string>)
    requires l.Linked? && l.slug !in seen && PiecesOf(before, plain, seen, seen)
    requires PiecesOf(after, rest, seen + {l.slug}, newSeen)
    ensures PiecesOf(before + l.words + after, plain + [l] + rest, seen, newSeen)
  {
    TextGrows(plain, l);
    TextJoins(plain + [l], rest);
    forall slug
      ensures CountPieces(plain + [l] + rest, slug) == if slug in newSeen && slug !in seen then 1 else 0
    {
      CountGrows(plain, l, slug);
    }
  }
}

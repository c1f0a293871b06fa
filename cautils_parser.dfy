/** The current SQL-to-NSQL select-list rewriter (cautils/parser.py).
    `Convert` walks the top-level tokens once with two flags,
    `insideSelect` and `isFirst`: it replaces every select-list column by an
    NSQL marker, stops rewriting at FROM, appends the filter marker to every
    WHERE group and echoes every other token. `Fold` is its specification:
    the same walk over values, one output chunk per token. */
module CautilsParser {
  import opened Base
  import opened Text
  import opened Markers
  import opened SqlTokens

  /** _parse_ts: follow the chain of identifiers nested as last children,
      collecting each first child followed by a space; at the innermost
      node answer its first child when that is a Function or Operation, and
      the collected text without trailing spaces otherwise. */
  function ParseTs(node: TsNode, acc: string): string
    decreases node
  {
    match node.last
    case NestedIdent(inner) => ParseTs(inner, acc + node.op + " ")
    case OtherLast => if !node.opIsCall then RStrip(acc, ' ') else node.op
  }

  /** The innermost node of the chain. */
  function Innermost(node: TsNode): TsNode
  {
    match node.last
    case NestedIdent(inner) => Innermost(inner)
    case OtherLast => node
  }

  /** The first children above the innermost node, each followed by a space. */
  function Spine(node: TsNode): string
  {
    match node.last
    case NestedIdent(inner) => node.op + " " + Spine(inner)
    case OtherLast => ""
  }

  /** The closed form of _parse_ts: a Function or Operation at the innermost
      node is the answer on its own (everything collected above it is
      dropped); otherwise the answer is the collected spine, right-stripped. */
  lemma {:induction false} ParseTsSpine(node: TsNode, acc: string)
    ensures ParseTs(node, acc) ==
      if Innermost(node).opIsCall then Innermost(node).op else RStrip(acc + Spine(node), ' ')
  {
    match node.last
    case NestedIdent(inner) =>
      ParseTsSpine(inner, acc + node.op + " ");
      assert acc + node.op + " " + Spine(inner) == acc + Spine(node);
    case OtherLast =>
      assert acc + Spine(node) == acc;
  }

  /** The select text of a plain identifier: the first name alone when it is
      the real name, `<first>.<real>` otherwise. */
  function PlainSelect(id: Ident): string
  {
    if id.firstName == id.realName then id.firstName else id.firstName + "." + id.realName
  }

  /** _parse_identifier: the column marker for one select item. */
  function ParseIdentifier(id: Ident, isFirst: bool): string
  {
    var (select, alias) := SelectAndAlias(id);
    CreateSelect(isFirst, select, alias)
  }

  /** The marker of a select item is the dimension exactly when `isFirst`
      holds, and it decodes to the select text and alias of the branch the
      item's first child selects. */
  lemma ParseIdentifierColumn(id: Ident, isFirst: bool)
    ensures var r := ParseIdentifier(id, isFirst);
      StartsWith(r, if isFirst then DimHead else PropHead)
      && (StartsWith(r, DimHead) <==> isFirst)
      && r != [] && r[|r| - 1] == '@'
      && (id.head.PlainHead? && ':' !in id.name ==>
            DecodeSelect(r) == Some(Column(isFirst, PlainSelect(id), id.name)))
      && (id.head.CaseHead? && ':' !in id.name ==>
            DecodeSelect(r) == Some(Column(isFirst, id.head.caseText, id.name)))
      && (id.head.CallHead? && ':' !in id.name ==>
            DecodeSelect(r) == Some(Column(isFirst, ParseTs(TsNode(id.head.call, true, id.head.last), ""), id.name)))
      && (id.head.ParenHead? && ':' !in id.head.lastName ==>
            DecodeSelect(r) == Some(Column(isFirst, id.head.parens, id.head.lastName)))
  {
    var (select, alias) := SelectAndAlias(id);
    CreateSelectHead(isFirst, select, alias);
    if ':' !in alias {
      DecodeCreateSelect(isFirst, select, alias);
    }
  }

  /** The select text and the alias `_parse_identifier` puts in the marker,
      by the type of the identifier's first child. */
  function SelectAndAlias(id: Ident): (string, string)
  {
    match id.head
    case CaseHead(caseText) => (caseText, id.name)
    case CallHead(call, last) => (ParseTs(TsNode(call, true, last), ""), id.name)
    case ParenHead(parens, lastName) => (parens, lastName)
    case PlainHead => (PlainSelect(id), id.name)
  }

  /** A list item that is not an Identifier is rebuilt as an Identifier made
      of one Name token holding the item's text. */
  function Wrap(item: ListItem): (r: Ident)
    ensures item.IdentItem? ==> r == item.id
    ensures !item.IdentItem? ==> PlainSelect(r) == ItemText(item) && r.name == ItemText(item) && r.head.PlainHead?
  {
    match item
    case IdentItem(id) => id
    case _ => Bare(ItemText(item))
  }

  function Bare(text: string): Ident
  {
    Ident(text, text, text, None, PlainHead, text)
  }

  /** A wrapped item selects its own text under its own text as alias. */
  lemma WrappedItemColumn(item: ListItem, isFirst: bool)
    requires !item.IdentItem? && ':' !in ItemText(item)
    ensures DecodeSelect(ParseIdentifier(Wrap(item), isFirst))
      == Some(Column(isFirst, ItemText(item), ItemText(item)))
  {
    ParseIdentifierColumn(Wrap(item), isFirst);
  }

  /** The lines an IdentifierList turns into: one marker per item, the first
      one rendered with `isFirst`, every later one as a property; a comma
      after every item but the last, and a newline after each. */
  function ListPieces(items: seq<ListItem>, isFirst: bool): (r: seq<string>)
    ensures |r| == |items|
  {
    seq(|items|, j requires 0 <= j < |items| =>
      ParseIdentifier(Wrap(items[j]), isFirst && j == 0) + (if j + 1 != |items| then "," else "") + "\n")
  }

  /** Layout of the list: every line ends in a newline, it ends in ",\n"
      exactly when it is not the last one, and only the first line of a list
      met while `isFirst` holds is the dimension. */
  lemma ListPiecesLayout(items: seq<ListItem>, isFirst: bool, j: nat)
    requires j < |items|
    ensures var p := ListPieces(items, isFirst)[j];
      EndsWith(p, "\n")
      && (EndsWith(p, ",\n") <==> j + 1 < |items|)
      && (StartsWith(p, DimHead) <==> isFirst && j == 0)
  {
    var id := Wrap(items[j]);
    var dim := isFirst && j == 0;
    var m := ParseIdentifier(id, dim);
    var p := ListPieces(items, isFirst)[j];
    ParseIdentifierColumn(id, dim);
    assert p == m + (if j + 1 != |items| then "," else "") + "\n";
    if j + 1 == |items| {
      assert p[|p| - 2] == '@';
    }
    assert p[..|DimHead|] == m[..|DimHead|];
  }

  /** The inner loop of `_convert` over an IdentifierList: it renders the
      items in order and clears `isFirst` after the first one. */
  method RenderList(items: seq<ListItem>, isFirst: bool) returns (lines: seq<string>, stillFirst: bool)
    ensures lines == ListPieces(items, isFirst)
    ensures stillFirst == (isFirst && items == [])
  {
    lines := [];
    stillFirst := isFirst;
    var j := 0;
    while j < |items|
      invariant 0 <= j <= |items|
      invariant stillFirst == (isFirst && j == 0)
      invariant lines == ListPieces(items, isFirst)[..j]
    {
      var id := Wrap(items[j]);
      var stmt := ParseIdentifier(id, stillFirst);
      if stillFirst {
        stillFirst := false;
      }
      lines := lines + [stmt + (if j + 1 != |items| then "," else "") + "\n"];
      j := j + 1;
    }
  }

  /** The walk's state: the two flags, the current children of every WHERE
      group, and the pieces emitted so far, one chunk per token. */
  datatype State = State(insideSelect: bool, isFirst: bool,
                         groups: map<WhereGroup, seq<string>>,
                         chunks: seq<seq<string>>)

  function Start(groups: map<WhereGroup, seq<string>>): State
  {
    State(true, true, groups, [])
  }

  function Emit(st: State, pieces: seq<string>): State
  {
    st.(chunks := st.chunks + [pieces])
  }

  /** One iteration of the loop in `_convert`. */
  function Step(st: State, t: Token): (r: State)
    requires t.WhereTok? ==> t.group in st.groups
    ensures r.groups.Keys == st.groups.Keys
    ensures forall h :: h in st.groups && t != WhereTok(h) ==> r.groups[h] == st.groups[h]
  {
    match t
    case IdentTok(id) =>
      if st.insideSelect then Emit(st, [ParseIdentifier(id, st.isFirst) + "\n"])
      else Emit(st, [id.text])
    case ListTok(items, text) =>
      if st.insideSelect then Emit(st, ListPieces(items, st.isFirst)).(isFirst := st.isFirst && items == [])
      else Emit(st, [text])
    case FromKw(text) =>
      Emit(st, [text]).(insideSelect := false)
    case WhereTok(g) =>
      var children := st.groups[g] + [Filter];
      Emit(st, [Concat(children)]).(groups := st.groups[g := children])
    case Other(text) =>
      Emit(st, [text])
  }

  /** Every step emits exactly one chunk and keeps the earlier ones. */
  lemma StepChunks(st: State, t: Token)
    requires t.WhereTok? ==> t.group in st.groups
    ensures |Step(st, t).chunks| == |st.chunks| + 1 && Step(st, t).chunks[..|st.chunks|] == st.chunks
  {
  }

  /** The whole walk, token by token. */
  function Fold(st: State, toks: seq<Token>): (r: State)
    requires Covers(st.groups.Keys, toks)
    ensures r.groups.Keys == st.groups.Keys
    decreases |toks|
  {
    if toks == [] then st
    else
      var next := Step(st, toks[0]);
      assert Covers(next.groups.Keys, toks[1..]) by {
        CoversTail(st.groups.Keys, toks);
      }
      Fold(next, toks[1..])
  }

  /** One pass of the loop in `_convert`: the pieces it yields for `token`
      and the flags afterwards are those of `Step`; a WHERE group gets the
      filter appended in place. */
  method ConvertToken(token: Token, insideSelect: bool, isFirst: bool, ghost st: State)
      returns (out: seq<string>, insideAfter: bool, firstAfter: bool)
    requires insideSelect == st.insideSelect && isFirst == st.isFirst
    requires token.WhereTok? ==> token.group in st.groups && token.group.tokens == st.groups[token.group]
    modifies if token.WhereTok? then {token.group} else {}
    ensures var next := Step(st, token);
      next.chunks == st.chunks + [out]
      && insideAfter == next.insideSelect && firstAfter == next.isFirst
      && (token.WhereTok? ==> token.group.tokens == next.groups[token.group])
    ensures forall g :: g in st.groups && token != WhereTok(g) ==> g.tokens == old(g.tokens)
  {
    insideAfter, firstAfter := insideSelect, isFirst;
    match token {
      case IdentTok(id) =>
        if insideSelect {
          return [ParseIdentifier(id, isFirst) + "\n"], insideAfter, firstAfter;
        }
      case ListTok(items, _) =>
        if insideSelect {
          out, firstAfter := RenderList(items, isFirst);
          return;
        }
      case FromKw(_) =>
        insideAfter := false;
      case WhereTok(g) =>
        g.Append(Filter);
        return [Concat(g.tokens)], insideAfter, firstAfter;
      case Other(_) =>
    }
    out := [Verbatim(token)];
  }

  lemma FoldCons(st: State, rest: seq<Token>)
    requires rest != [] && Covers(st.groups.Keys, rest)
    ensures rest[0].WhereTok? ==> rest[0].group in st.groups
    ensures Covers(Step(st, rest[0]).groups.Keys, rest[1..])
    ensures Fold(st, rest) == Fold(Step(st, rest[0]), rest[1..])
  {
    CoversTail(st.groups.Keys, rest);
  }

  /** One more token of the walk: what is left after token k is walked from
      the state one step further. */
  lemma FoldNext(st: State, toks: seq<Token>, k: nat)
    requires k < |toks| && Covers(st.groups.Keys, toks[k..])
    ensures toks[k].WhereTok? ==> toks[k].group in st.groups
    ensures Covers(Step(st, toks[k]).groups.Keys, toks[k + 1..])
    ensures Fold(Step(st, toks[k]), toks[k + 1..]) == Fold(st, toks[k..])
  {
    FoldCons(st, toks[k..]);
    assert toks[k..][0] == toks[k];
    assert toks[k..][1..] == toks[k + 1..];
  }

  /** _convert, over the flattened token stream of the statements: the
      pieces it yields and the new children of every WHERE group are those
      of `Fold` started from the groups' children before the call. */
  method Convert(statements: seq<Statement>) returns (pieces: seq<string>)
    modifies GroupsOf(Flatten(statements))
    ensures var toks := Flatten(statements);
      Covers(GroupsOf(toks), toks)
      && var fin := Fold(Start(old(Snapshot(GroupsOf(toks)))), toks);
      pieces == Joined(fin.chunks)
      && forall g :: g in GroupsOf(toks) ==> g.tokens == fin.groups[g]
  {
    var toks := Flatten(statements);
    ghost var gs := GroupsOf(toks);
    ghost var st := Start(Snapshot(gs));
    ghost var st0 := st;
    assert toks[0..] == toks;
    var insideSelect, isFirst := true, true;
    pieces := [];
    var k := 0;
    while k < |toks|
      invariant 0 <= k <= |toks|
      invariant st.groups.Keys == gs
      invariant Covers(st.groups.Keys, toks[k..])
      invariant Fold(st, toks[k..]) == Fold(st0, toks)
      invariant insideSelect == st.insideSelect && isFirst == st.isFirst
      invariant pieces == Joined(st.chunks)
      invariant forall g :: g in gs ==> g.tokens == st.groups[g]
    {
      var token := toks[k];
      FoldNext(st, toks, k);
      var out;
      ghost var prev := st;
      out, insideSelect, isFirst := ConvertToken(token, insideSelect, isFirst, st);
      JoinedSnoc(st.chunks, out);
      pieces := pieces + out;
      st := Step(st, token);
      forall g | g in gs
        ensures g.tokens == st.groups[g]
      {
        if token != WhereTok(g) {
          assert g.tokens == prev.groups[g];
        }
      }
      k := k + 1;
    }
  }

  /** sql_to_nsql: the pieces joined into one string. */
  method SqlToNsql(statements: seq<Statement>) returns (nsql: string)
    modifies GroupsOf(Flatten(statements))
    ensures var toks := Flatten(statements);
      Covers(GroupsOf(toks), toks)
      && nsql == Concat(Joined(Fold(Start(old(Snapshot(GroupsOf(toks)))), toks).chunks))
  {
    var pieces := Convert(statements);
    nsql := Concat(pieces);
  }
}

/** What the walk of `CautilsParser` promises, proved about its
    specification `Fold`. */
module CautilsWalk {
  import opened Text
  import opened SqlTokens
  import opened CautilsParser

  /** Walking a + b is walking a, then b from where a left off. */
  lemma {:induction false} FoldSplit(st: State, a: seq<Token>, b: seq<Token>)
    requires Covers(st.groups.Keys, a + b)
    ensures Covers(st.groups.Keys, a) && Covers(Fold(st, a).groups.Keys, b)
    ensures Fold(st, a + b) == Fold(Fold(st, a), b)
    decreases |a|
  {
    CoversAppend(st.groups.Keys, a, b);
    if a == [] {
      assert a + b == b;
    } else {
      var next := Step(st, a[0]);
      assert (a + b)[0] == a[0];
      assert (a + b)[1..] == a[1..] + b;
      assert Covers(next.groups.Keys, a[1..] + b) by {
        CoversAppend(st.groups.Keys, a[1..], b);
        assert a == [a[0]] + a[1..];
        CoversAppend(st.groups.Keys, [a[0]], a[1..]);
      }
      FoldSplit(next, a[1..], b);
    }
  }

  /** The walk emits exactly one chunk per token and never rewrites what it
      has already emitted. */
  lemma {:induction false} FoldChunks(st: State, a: seq<Token>)
    requires Covers(st.groups.Keys, a)
    ensures |Fold(st, a).chunks| == |st.chunks| + |a|
    ensures Fold(st, a).chunks[..|st.chunks|] == st.chunks
    decreases |a|
  {
    if a != [] {
      var next := Step(st, a[0]);
      StepChunks(st, a[0]);
      FoldChunks(next, a[1..]);
    }
  }

  /** `insideSelect` ends false exactly when a FROM keyword was met: it is
      cleared at FROM and nothing sets it back. */
  lemma {:induction false} InsideSelectAfter(st: State, a: seq<Token>)
    requires Covers(st.groups.Keys, a)
    ensures Fold(st, a).insideSelect == (st.insideSelect && !HasFrom(a))
    decreases |a|
  {
    if a != [] {
      HasFromCons(a);
      InsideSelectAfter(Step(st, a[0]), a[1..]);
    }
  }

  /** `isFirst` ends true exactly when it started true and no non-empty
      IdentifierList was rewritten: it is cleared by the first list item
      and nothing sets it back; a lone Identifier does not clear it. */
  lemma {:induction false} IsFirstAfter(st: State, a: seq<Token>)
    requires Covers(st.groups.Keys, a)
    ensures Fold(st, a).isFirst == (st.isFirst && !(st.insideSelect && ListBeforeFrom(a)))
    decreases |a|
  {
    if a != [] {
      SomeBeforeFromCons(a, NonEmptyList);
      IsFirstAfter(Step(st, a[0]), a[1..]);
    }
  }

  /** The whole walk is the walk up to k, one step for token k, then the
      rest. */
  lemma FoldAround(st: State, a: seq<Token>, k: nat)
    requires Covers(st.groups.Keys, a) && k < |a|
    ensures Covers(st.groups.Keys, a[..k])
    ensures a[k].WhereTok? ==> a[k].group in Fold(st, a[..k]).groups
    ensures Covers(Step(Fold(st, a[..k]), a[k]).groups.Keys, a[k + 1..])
    ensures Fold(st, a) == Fold(Step(Fold(st, a[..k]), a[k]), a[k + 1..])
  {
    assert a == a[..k] + a[k..];
    FoldSplit(st, a[..k], a[k..]);
    var before := Fold(st, a[..k]);
    assert a[k..][0] == a[k];
    assert a[k..][1..] == a[k + 1..];
    CoversTail(before.groups.Keys, a[k..]);
  }

  /** The chunk emitted for token k is what one step emits from the state
      the walk reached after the tokens before it. */
  lemma ChunkAt(st: State, a: seq<Token>, k: nat)
    requires Covers(st.groups.Keys, a) && k < |a|
    ensures Covers(st.groups.Keys, a[..k])
    ensures a[k].WhereTok? ==> a[k].group in Fold(st, a[..k]).groups
    ensures |Fold(st, a[..k]).chunks| == |st.chunks| + k
    ensures |Step(Fold(st, a[..k]), a[k]).chunks| == |st.chunks| + k + 1
    ensures |Fold(st, a).chunks| == |st.chunks| + |a|
    ensures Fold(st, a).chunks[|st.chunks| + k]
      == Step(Fold(st, a[..k]), a[k]).chunks[|st.chunks| + k]
  {
    FoldAround(st, a, k);
    var before := Fold(st, a[..k]);
    var next := Step(before, a[k]);
    FoldChunks(next, a[k + 1..]);
    FoldChunks(st, a[..k]);
    StepChunks(before, a[k]);
    var idx := |st.chunks| + k;
    assert Fold(st, a).chunks[idx] == next.chunks[idx] by {
      assert Fold(next, a[k + 1..]).chunks[..|next.chunks|][idx] == next.chunks[idx];
    }
  }


  /** A lone Identifier before FROM becomes one marker line, the dimension
      exactly when no list came before it. */
  lemma SelectIdentifierChunk(st: State, a: seq<Token>, k: nat)
    requires Covers(st.groups.Keys, a) && k < |a| && a[k].IdentTok?
    requires st.insideSelect && !HasFrom(a[..k])
    ensures |Fold(st, a).chunks| == |st.chunks| + |a|
    ensures Fold(st, a).chunks[|st.chunks| + k]
      == [ParseIdentifier(a[k].id, st.isFirst && !ListBeforeFrom(a[..k])) + "\n"]
  {
    ChunkAt(st, a, k);
    InsideSelectAfter(st, a[..k]);
    IsFirstAfter(st, a[..k]);
  }

  /** An IdentifierList before FROM becomes its marker lines, the first of
      them the dimension exactly when no list came before it. */
  lemma SelectListChunk(st: State, a: seq<Token>, k: nat)
    requires Covers(st.groups.Keys, a) && k < |a| && a[k].ListTok?
    requires st.insideSelect && !HasFrom(a[..k])
    ensures |Fold(st, a).chunks| == |st.chunks| + |a|
    ensures Fold(st, a).chunks[|st.chunks| + k]
      == ListPieces(a[k].items, st.isFirst && !ListBeforeFrom(a[..k]))
  {
    ChunkAt(st, a, k);
    InsideSelectAfter(st, a[..k]);
    IsFirstAfter(st, a[..k]);
  }

  /** Every token the select rewriting does not consume -- anything after
      FROM, the FROM keyword itself, and every token that is neither an
      Identifier nor an IdentifierList -- is echoed as its own text. */
  lemma EchoChunk(st: State, a: seq<Token>, k: nat)
    requires Covers(st.groups.Keys, a) && k < |a| && !a[k].WhereTok?
    requires (a[k].IdentTok? || a[k].ListTok?) ==> !st.insideSelect || HasFrom(a[..k])
    ensures |Fold(st, a).chunks| == |st.chunks| + |a|
    ensures Fold(st, a).chunks[|st.chunks| + k] == [Verbatim(a[k])]
  {
    ChunkAt(st, a, k);
    InsideSelectAfter(st, a[..k]);
  }

  /** Every occurrence of a WHERE group appends one filter token to it. */
  lemma {:induction false} FilterCount(st: State, a: seq<Token>, g: WhereGroup)
    requires Covers(st.groups.Keys, a) && g in st.groups
    ensures Fold(st, a).groups[g] == st.groups[g] + Repeat(Filter, Occurrences(g, a))
    decreases |a|
  {
    if a != [] {
      var next := Step(st, a[0]);
      FilterCount(next, a[1..], g);
      if a[0] == WhereTok(g) {
        assert next.groups[g] == st.groups[g] + [Filter];
        assert Repeat(Filter, Occurrences(g, a)) == [Filter] + Repeat(Filter, Occurrences(g, a[1..]));
      }
    }
  }

  lemma StepWhere(st: State, g: WhereGroup, idx: nat)
    requires g in st.groups && idx == |st.chunks|
    ensures Step(st, WhereTok(g)).chunks[idx] == [Concat(st.groups[g] + [Filter])]
  {
  }

  /** The children of g after the tokens before k, plus the filter its
      occurrence at k adds. */
  lemma GroupAt(st: State, a: seq<Token>, k: nat, g: WhereGroup)
    requires Covers(st.groups.Keys, a) && k < |a| && a[k] == WhereTok(g) && g in st.groups
    ensures Covers(st.groups.Keys, a[..k])
    ensures Fold(st, a[..k]).groups[g] + [Filter]
      == st.groups[g] + Repeat(Filter, Occurrences(g, a[..k + 1]))
  {
    assert Covers(st.groups.Keys, a[..k]) by {
      assert a == a[..k] + a[k..];
      CoversAppend(st.groups.Keys, a[..k], a[k..]);
    }
    var n := Occurrences(g, a[..k]);
    assert Occurrences(g, a[..k + 1]) == n + 1 by {
      assert a[..k + 1] == a[..k] + [a[k]];
      OccurrencesAppend(g, a[..k], [a[k]]);
      assert [a[k]][1..] == [];
    }
    FilterCount(st, a[..k], g);
    RepeatSnoc(n);
    calc {
      Fold(st, a[..k]).groups[g] + [Filter];
      st.groups[g] + Repeat(Filter, n) + [Filter];
      st.groups[g] + (Repeat(Filter, n) + [Filter]);
      st.groups[g] + Repeat(Filter, n + 1);
    }
  }

  /** A WHERE group is emitted with its children followed by as many
      filters as it has occurrences up to and including this one. */
  lemma WhereChunk(st: State, a: seq<Token>, k: nat, g: WhereGroup)
    requires Covers(st.groups.Keys, a) && k < |a| && a[k] == WhereTok(g)
    ensures g in st.groups && |Fold(st, a).chunks| == |st.chunks| + |a|
    ensures Fold(st, a).chunks[|st.chunks| + k]
      == [Concat(st.groups[g] + Repeat(Filter, Occurrences(g, a[..k + 1])))]
  {
    ChunkAt(st, a, k);
    assert g in st.groups;
    StepWhere(Fold(st, a[..k]), g, |st.chunks| + k);
    GroupAt(st, a, k, g);
  }

  lemma {:induction false} RepeatSnoc(n: nat)
    ensures Repeat(Filter, n + 1) == Repeat(Filter, n) + [Filter]
  {
    if n > 0 {
      RepeatSnoc(n - 1);
    }
  }

  /** A WHERE group that occurs once (as sqlparse produces it) is emitted
      with exactly one filter at its end, and that is its final content. */
  lemma WhereOnce(st: State, a: seq<Token>, k: nat, g: WhereGroup)
    requires Covers(st.groups.Keys, a) && k < |a| && a[k] == WhereTok(g) && Occurrences(g, a) == 1
    ensures g in st.groups && |Fold(st, a).chunks| == |st.chunks| + |a|
    ensures Fold(st, a).chunks[|st.chunks| + k] == [Concat(st.groups[g]) + Filter]
    ensures Fold(st, a).groups[g] == st.groups[g] + [Filter]
  {
    WhereChunk(st, a, k, g);
    FilterCount(st, a, g);
    OnceUpTo(g, a, k);
    assert Repeat(Filter, 1) == [Filter];
    ConcatAppend(st.groups[g], [Filter]);
    assert Concat([Filter]) == Filter;
  }
}

/** The older SQL-to-NSQL select-list rewriter (nsql/parser.py). Unlike
    the current one it rewrites only IdentifierLists (a lone Identifier is
    echoed), always writes the select part as `<table>.<real>`, takes the
    alias slot from `get_alias() or get_real_name()`, reads the name
    accessors of every list item (a single ungrouped token has none, so the
    walk fails with an AttributeError), and inserts the filter into a WHERE
    group at the position sqlparse's `insert_after` picks. */
module NsqlParser {
  import opened Base
  import opened Text
  import opened Markers
  import opened SqlTokens

  /** The failure of the walk: a plain token in a select list has no
      `_get_first_name` attribute. */
  datatype NsqlError = AttributeError(attribute: string)

  /** `insert_after(i, ...)` on a WHERE group: the index its search
      settles on, from the enumeration index and the group's children. */
  type InsertPosition = (nat, seq<string>) -> nat

  predicate HasLeaf(items: seq<ListItem>)
  {
    exists j :: 0 <= j < |items| && items[j].LeafItem?
  }

  /** `get_alias() or real_name`: an absent or empty alias falls back to
      the real name. */
  function Attr(id: Ident): (r: string)
    ensures id.alias.Some? && id.alias.value != "" ==> r == id.alias.value
    ensures r == id.realName || (id.alias.Some? && r == id.alias.value)
    ensures r == "" <==> id.realName == "" && (id.alias.None? || id.alias.value == "")
  {
    if id.alias.Some? && id.alias.value != "" then id.alias.value else id.realName
  }

  /** The line for item j of a list met while `isFirst` holds or not. */
  function ItemLine(items: seq<ListItem>, j: nat, isFirst: bool): string
    requires j < |items| && !items[j].LeafItem?
  {
    ItemMarker(items, j, isFirst) + (if j + 1 != |items| then "," else "") + "\n"
  }

  function ListPieces(items: seq<ListItem>, isFirst: bool): (r: seq<string>)
    requires !HasLeaf(items)
    ensures |r| == |items|
  {
    seq(|items|, j requires 0 <= j < |items| => ItemLine(items, j, isFirst))
  }

  /** Each line of a list: the marker of `<table>.<real>` under the alias
      or real name, the dimension exactly for the first line of a list met
      while `isFirst` holds, then a comma on all but the last line, then a
      newline. */
  function ItemMarker(items: seq<ListItem>, j: nat, isFirst: bool): string
    requires j < |items| && !items[j].LeafItem?
  {
    var id := items[j].id;
    CreateSelect(isFirst && j == 0, id.firstName + "." + id.realName, Attr(id))
  }

  lemma ItemLineLayout(items: seq<ListItem>, j: nat, isFirst: bool)
    requires j < |items| && !items[j].LeafItem?
    ensures var id := items[j].id;
      var line := ItemLine(items, j, isFirst);
      var m := line[..|line| - (if j + 1 != |items| then 2 else 1)];
      EndsWith(line, "\n")
      && (EndsWith(line, ",\n") <==> j + 1 != |items|)
      && (StartsWith(line, DimHead) <==> isFirst && j == 0)
      && (':' !in Attr(id) ==>
            DecodeSelect(m) == Some(Column(isFirst && j == 0, id.firstName + "." + id.realName, Attr(id))))
  {
    var id := items[j].id;
    var stmt := ItemMarker(items, j, isFirst);
    var sep := if j + 1 != |items| then "," else "";
    CreateSelectHead(isFirst && j == 0, id.firstName + "." + id.realName, Attr(id));
    assert |DimHead| <= |PropHead|;
    LineParts(stmt, sep);
    var line := stmt + sep + "\n";
    assert ItemLine(items, j, isFirst) == line;
    assert line[..|line| - (if j + 1 != |items| then 2 else 1)] == stmt;
    if ':' !in Attr(id) {
      MarkerDecodes(items, j, isFirst);
    }
  }

  /** With no ':' in the alias, an item's marker decodes back to its column. */
  lemma MarkerDecodes(items: seq<ListItem>, j: nat, isFirst: bool)
    requires j < |items| && !items[j].LeafItem? && ':' !in Attr(items[j].id)
    ensures var id := items[j].id;
      DecodeSelect(ItemMarker(items, j, isFirst))
        == Some(Column(isFirst && j == 0, id.firstName + "." + id.realName, Attr(id)))
  {
    var id := items[j].id;
    DecodeCreateSelect(isFirst && j == 0, id.firstName + "." + id.realName, Attr(id));
  }

  /** A marker line is the marker, its separator and a newline: it ends
      with ",\n" exactly when the separator is a comma, and starts with the
      dimension head exactly when the marker does. */
  lemma LineParts(stmt: string, sep: string)
    requires sep == "" || sep == ","
    requires |DimHead| <= |stmt| && stmt[|stmt| - 1] == '@'
    ensures var line := stmt + sep + "\n";
      EndsWith(line, "\n") && line[..|line| - |sep| - 1] == stmt
      && (EndsWith(line, ",\n") <==> sep == ",")
      && (StartsWith(line, DimHead) <==> StartsWith(stmt, DimHead))
  {
    var line := stmt + sep + "\n";
    assert line[..|line| - |sep| - 1] == stmt;
    assert line[..|DimHead|] == stmt[..|DimHead|];
    if sep == "" {
      assert line[|line| - 2] == '@';
    }
  }

  /** The inner loop of `_convert` over an IdentifierList: it renders the
      items in order, clears `isFirst` after the first one, and fails at
      the first item that is a plain token. */
  method RenderList(items: seq<ListItem>, isFirst: bool)
      returns (lines: seq<string>, stillFirst: bool, failure: Option<NsqlError>)
    ensures failure.Some? <==> HasLeaf(items)
    ensures failure.Some? ==> failure.value == AttributeError("_get_first_name")
    ensures failure.None? ==> lines == ListPieces(items, isFirst) && stillFirst == (isFirst && items == [])
  {
    lines := [];
    stillFirst := isFirst;
    failure := None;
    var j := 0;
    while j < |items|
      invariant 0 <= j <= |items|
      invariant stillFirst == (isFirst && j == 0)
      invariant forall i :: 0 <= i < j ==> !items[i].LeafItem?
      invariant |lines| == j
      invariant forall i :: 0 <= i < j ==> lines[i] == ItemLine(items, i, isFirst)
    {
      if items[j].LeafItem? {
        return lines, stillFirst, Some(AttributeError("_get_first_name"));
      }
      var id := items[j].id;
      var table := id.firstName;
      var realName := id.realName;
      var attr := Attr(id);
      var stmt;
      if stillFirst {
        stmt := CreateSelect(true, table + "." + realName, attr);
        stillFirst := false;
      } else {
        stmt := CreateSelect(false, table + "." + realName, attr);
      }
      lines := lines + [stmt + (if j + 1 != |items| then "," else "") + "\n"];
      j := j + 1;
    }
  }

  /** The walk's state: the two flags, the current children of every WHERE
      group, the pieces emitted so far (one chunk per token, so their number
      is the enumeration index of the next token) and a failure, if any. */
  datatype State = State(insideSelect: bool, isFirst: bool,
                         groups: map<WhereGroup, seq<string>>,
                         chunks: seq<seq<string>>,
                         failure: Option<NsqlError>)

  function Start(groups: map<WhereGroup, seq<string>>): State
  {
    State(true, true, groups, [], None)
  }

  function Emit(st: State, pieces: seq<string>): State
  {
    st.(chunks := st.chunks + [pieces])
  }

  /** The WHERE group's children with the filter inserted where sqlparse puts it. */
  function WithFilter(children: seq<string>, index: nat, pick: InsertPosition): seq<string>
  {
    InsertClamped(children, pick(index, children), Filter)
  }

  /** One iteration of the loop in `_convert`. */
  function Step(st: State, t: Token, pick: InsertPosition): (r: State)
    requires t.WhereTok? ==> t.group in st.groups
    ensures r.groups.Keys == st.groups.Keys
    ensures forall h :: h in st.groups && t != WhereTok(h) ==> r.groups[h] == st.groups[h]
  {
    match t
    case ListTok(items, text) =>
      if !st.insideSelect then Emit(st, [text])
      else if HasLeaf(items) then st.(failure := Some(AttributeError("_get_first_name")))
      else Emit(st, ListPieces(items, st.isFirst)).(isFirst := st.isFirst && items == [])
    case FromKw(text) =>
      Emit(st, [text]).(insideSelect := false)
    case WhereTok(g) =>
      var children := WithFilter(st.groups[g], |st.chunks|, pick);
      Emit(st, [Concat(children)]).(groups := st.groups[g := children])
    case _ =>
      Emit(st, [Verbatim(t)])
  }

  /** Every step that does not fail emits exactly one chunk and keeps the
      earlier ones. */
  lemma StepChunks(st: State, t: Token, pick: InsertPosition)
    requires t.WhereTok? ==> t.group in st.groups
    ensures var r := Step(st, t, pick);
      r.failure.None? ==> |r.chunks| == |st.chunks| + 1 && r.chunks[..|st.chunks|] == st.chunks
  {
  }

  /** A WHERE group's step leaves it with the filter inserted where sqlparse
      picks for the step's enumeration index, and emits its new children. */
  lemma StepWhere(st: State, g: WhereGroup, pick: InsertPosition)
    requires g in st.groups
    ensures var r := Step(st, WhereTok(g), pick);
      r.groups[g] == WithFilter(st.groups[g], |st.chunks|, pick) && r.chunks[|st.chunks|] == [Concat(r.groups[g])]
  {
  }

  /** The whole walk; it stops at a failure. */
  function Fold(st: State, toks: seq<Token>, pick: InsertPosition): (r: State)
    requires Covers(st.groups.Keys, toks)
    ensures r.groups.Keys == st.groups.Keys
    decreases |toks|
  {
    if toks == [] || st.failure.Some? then st
    else
      var next := Step(st, toks[0], pick);
      assert Covers(next.groups.Keys, toks[1..]) by {
        CoversTail(st.groups.Keys, toks);
      }
      Fold(next, toks[1..], pick)
  }

  /** One pass of the loop in `_convert`, as `Step` describes it; a WHERE
      group gets the filter inserted in place. */
  method ConvertToken(token: Token, index: nat, insideSelect: bool, isFirst: bool,
                      pick: InsertPosition, ghost st: State)
      returns (out: seq<string>, insideAfter: bool, firstAfter: bool, failure: Option<NsqlError>)
    requires insideSelect == st.insideSelect && isFirst == st.isFirst && index == |st.chunks|
    requires st.failure.None?
    requires token.WhereTok? ==> token.group in st.groups
    requires forall g :: g in st.groups ==> g.tokens == st.groups[g]
    modifies if token.WhereTok? then {token.group} else {}
    ensures var next := Step(st, token, pick);
      failure == next.failure
      && (failure.None? ==> next.chunks == st.chunks + [out])
      && insideAfter == next.insideSelect && firstAfter == next.isFirst
      && forall g :: g in next.groups ==> g.tokens == next.groups[g]
  {
    insideAfter, firstAfter, failure := insideSelect, isFirst, None;
    if token.ListTok? && insideSelect {
      out, firstAfter, failure := RenderList(token.items, isFirst);
      if failure.Some? {
        firstAfter := isFirst;
      }
      return;
    } else if token.FromKw? {
      insideAfter := false;
    } else if token.WhereTok? {
      token.group.Insert(pick(index, token.group.tokens), Filter);
      return [Concat(token.group.tokens)], insideAfter, firstAfter, None;
    }
    out := [Verbatim(token)];
  }

  /** One more token of a walk without failure: what is left after token
      i is walked from the state one step further. */
  lemma FoldNext(st: State, toks: seq<Token>, i: nat, pick: InsertPosition)
    requires i < |toks| && Covers(st.groups.Keys, toks[i..]) && st.failure.None?
    ensures toks[i].WhereTok? ==> toks[i].group in st.groups
    ensures Covers(Step(st, toks[i], pick).groups.Keys, toks[i + 1..])
    ensures Fold(Step(st, toks[i], pick), toks[i + 1..], pick) == Fold(st, toks[i..], pick)
  {
    var rest := toks[i..];
    assert rest[0] == toks[i];
    assert rest[1..] == toks[i + 1..];
    CoversTail(st.groups.Keys, rest);
  }

  /** _convert over the flattened token stream: on success the pieces it
      yields and the new children of every WHERE group are those of `Fold`
      started from the groups' children before the call; it fails exactly
      when `Fold` does. */
  method Convert(statements: seq<Statement>, pick: InsertPosition)
      returns (result: Result<seq<string>, NsqlError>)
    modifies GroupsOf(Flatten(statements))
    ensures var toks := Flatten(statements);
      Covers(GroupsOf(toks), toks)
      && var fin := Fold(Start(old(Snapshot(GroupsOf(toks)))), toks, pick);
      (result.Err? <==> fin.failure.Some?)
      && (result.Err? ==> result.error == fin.failure.value)
      && (result.Ok? ==> result.value == Joined(fin.chunks))
      && forall g :: g in GroupsOf(toks) ==> g.tokens == fin.groups[g]
  {
    var toks := Flatten(statements);
    ghost var gs := GroupsOf(toks);
    ghost var st := Start(Snapshot(gs));
    ghost var st0 := st;
    assert toks[0..] == toks;
    var insideSelect, isFirst := true, true;
    var pieces := [];
    var i := 0;
    while i < |toks|
      invariant 0 <= i <= |toks|
      invariant st.groups.Keys == gs && st.failure.None? && |st.chunks| == i
      invariant Covers(st.groups.Keys, toks[i..])
      invariant Fold(st, toks[i..], pick) == Fold(st0, toks, pick)
      invariant insideSelect == st.insideSelect && isFirst == st.isFirst
      invariant pieces == Joined(st.chunks)
      invariant forall g :: g in gs ==> g.tokens == st.groups[g]
    {
      var token := toks[i];
      FoldNext(st, toks, i, pick);
      var out, failure;
      ghost var prev := st;
      out, insideSelect, isFirst, failure := ConvertToken(token, i, insideSelect, isFirst, pick, st);
      st := Step(st, token, pick);
      if failure.Some? {
        assert Fold(st0, toks, pick) == st by {
          assert Fold(st, toks[i + 1..], pick) == st;
        }
        return Err(failure.value);
      }
      JoinedSnoc(prev.chunks, out);
      pieces := pieces + out;
      i := i + 1;
    }
    result := Ok(pieces);
  }

  /** sql_to_nsql: the pieces joined into one string, or the failure. */
  method SqlToNsql(statements: seq<Statement>, pick: InsertPosition)
      returns (result: Result<string, NsqlError>)
    modifies GroupsOf(Flatten(statements))
    ensures var toks := Flatten(statements);
      Covers(GroupsOf(toks), toks)
      && var fin := Fold(Start(old(Snapshot(GroupsOf(toks)))), toks, pick);
      (result.Err? <==> fin.failure.Some?)
      && (result.Err? ==> result.error == fin.failure.value)
      && (result.Ok? ==> result.value == Concat(Joined(fin.chunks)))
  {
    var pieces := Convert(statements, pick);
    match pieces {
      case Ok(p) => result := Ok(Concat(p));
      case Err(e) => result := Err(e);
    }
  }
}

/** What the older walk does, token by token, and when it fails. */
module NsqlWalk {
  import opened Text
  import opened SqlTokens
  import opened NsqlParser

  /** Walking a + b is walking a, then b from where a left off (a failure
      in a is carried through b untouched). */
  lemma {:induction false} FoldSplit(st: State, a: seq<Token>, b: seq<Token>, pick: InsertPosition)
    requires Covers(st.groups.Keys, a + b)
    ensures Covers(st.groups.Keys, a) && Covers(Fold(st, a, pick).groups.Keys, b)
    ensures Fold(st, a + b, pick) == Fold(Fold(st, a, pick), b, pick)
    decreases |a|
  {
    CoversAppend(st.groups.Keys, a, b);
    if a == [] {
      assert a + b == b;
    } else if st.failure.None? {
      var next := Step(st, a[0], pick);
      assert (a + b)[0] == a[0];
      assert (a + b)[1..] == a[1..] + b;
      assert Covers(next.groups.Keys, a[1..] + b) by {
        CoversAppend(st.groups.Keys, a[1..], b);
        assert a == [a[0]] + a[1..];
        CoversAppend(st.groups.Keys, [a[0]], a[1..]);
      }
      FoldSplit(next, a[1..], b, pick);
    }
  }

  /** A select list holding a plain token. */
  predicate LeafList(t: Token)
  {
    t.ListTok? && HasLeaf(t.items)
  }

  /** The walk fails exactly when, while still inside the select part, it
      meets an IdentifierList holding a plain token before any FROM. */
  lemma {:induction false} FailsIff(st: State, a: seq<Token>, pick: InsertPosition)
    requires Covers(st.groups.Keys, a) && st.failure.None?
    ensures Fold(st, a, pick).failure.Some? <==> st.insideSelect && SomeBeforeFrom(a, LeafList)
    decreases |a|
  {
    if a != [] {
      SomeBeforeFromCons(a, LeafList);
      var next := Step(st, a[0], pick);
      CoversTail(st.groups.Keys, a);
      if next.failure.None? {
        FailsIff(next, a[1..], pick);
      }
    }
  }

  /** Without a failure the walk emits exactly one chunk per token and
      never rewrites what it has already emitted. */
  lemma {:induction false} FoldChunks(st: State, a: seq<Token>, pick: InsertPosition)
    requires Covers(st.groups.Keys, a) && Fold(st, a, pick).failure.None?
    ensures st.failure.None?
    ensures |Fold(st, a, pick).chunks| == |st.chunks| + |a|
    ensures Fold(st, a, pick).chunks[..|st.chunks|] == st.chunks
    decreases |a|
  {
    if a != [] {
      var next := Step(st, a[0], pick);
      CoversTail(st.groups.Keys, a);
      StepChunks(st, a[0], pick);
      FoldChunks(next, a[1..], pick);
    }
  }

  /** `insideSelect` ends false exactly when a FROM keyword was met. */
  lemma {:induction false} InsideSelectAfter(st: State, a: seq<Token>, pick: InsertPosition)
    requires Covers(st.groups.Keys, a) && Fold(st, a, pick).failure.None?
    ensures Fold(st, a, pick).insideSelect == (st.insideSelect && !HasFrom(a))
    decreases |a|
  {
    if a != [] {
      HasFromCons(a);
      CoversTail(st.groups.Keys, a);
      InsideSelectAfter(Step(st, a[0], pick), a[1..], pick);
    }
  }

  /** `isFirst` ends true exactly when it started true and no non-empty
      IdentifierList was rewritten; a lone Identifier never clears it. */
  lemma {:induction false} IsFirstAfter(st: State, a: seq<Token>, pick: InsertPosition)
    requires Covers(st.groups.Keys, a) && Fold(st, a, pick).failure.None?
    ensures Fold(st, a, pick).isFirst == (st.isFirst && !(st.insideSelect && ListBeforeFrom(a)))
    decreases |a|
  {
    if a != [] {
      SomeBeforeFromCons(a, NonEmptyList);
      CoversTail(st.groups.Keys, a);
      IsFirstAfter(Step(st, a[0], pick), a[1..], pick);
    }
  }

  /** In a walk without failure, the whole walk is the walk up to k, one
      step for token k, then the rest. */
  lemma FoldAround(st: State, a: seq<Token>, k: nat, pick: InsertPosition)
    requires Covers(st.groups.Keys, a) && k < |a| && Fold(st, a, pick).failure.None?
    ensures Covers(st.groups.Keys, a[..k])
    ensures a[k].WhereTok? ==> a[k].group in Fold(st, a[..k], pick).groups
    ensures Fold(st, a[..k], pick).failure.None?
    ensures Covers(Step(Fold(st, a[..k], pick), a[k], pick).groups.Keys, a[k + 1..])
    ensures Fold(st, a, pick) == Fold(Step(Fold(st, a[..k], pick), a[k], pick), a[k + 1..], pick)
  {
    assert a == a[..k] + a[k..];
    FoldSplit(st, a[..k], a[k..], pick);
    var before := Fold(st, a[..k], pick);
    FoldChunks(before, a[k..], pick);
    assert a[k..][0] == a[k];
    assert a[k..][1..] == a[k + 1..];
    CoversTail(before.groups.Keys, a[k..]);
  }

  /** In a walk without failure, the chunk emitted for token k is what one
      step emits from the state reached after the tokens before it, whose
      chunk count is the token's enumeration index. */
  lemma ChunkAt(st: State, a: seq<Token>, k: nat, pick: InsertPosition)
    requires Covers(st.groups.Keys, a) && k < |a| && Fold(st, a, pick).failure.None?
    ensures Covers(st.groups.Keys, a[..k])
    ensures a[k].WhereTok? ==> a[k].group in Fold(st, a[..k], pick).groups
    ensures Fold(st, a[..k], pick).failure.None?
    ensures Step(Fold(st, a[..k], pick), a[k], pick).failure.None?
    ensures |Fold(st, a[..k], pick).chunks| == |st.chunks| + k
    ensures |Step(Fold(st, a[..k], pick), a[k], pick).chunks| == |st.chunks| + k + 1
    ensures |Fold(st, a, pick).chunks| == |st.chunks| + |a|
    ensures Fold(st, a, pick).chunks[|st.chunks| + k]
      == Step(Fold(st, a[..k], pick), a[k], pick).chunks[|st.chunks| + k]
  {
    FoldAround(st, a, k, pick);
    var before := Fold(st, a[..k], pick);
    var next := Step(before, a[k], pick);
    FoldChunks(next, a[k + 1..], pick);
    FoldChunks(st, a[..k], pick);
    StepChunks(before, a[k], pick);
    var idx := |st.chunks| + k;
    assert Fold(st, a, pick).chunks[idx] == next.chunks[idx] by {
      assert Fold(next, a[k + 1..], pick).chunks[..|next.chunks|][idx] == next.chunks[idx];
    }
  }

  /** The older walk never rewrites a lone Identifier: it is echoed even
      inside the select part. Every other token except a WHERE group and a
      select-part IdentifierList is echoed too. */
  lemma EchoChunk(st: State, a: seq<Token>, k: nat, pick: InsertPosition)
    requires Covers(st.groups.Keys, a) && k < |a| && Fold(st, a, pick).failure.None?
    requires !a[k].WhereTok?
    requires a[k].ListTok? ==> !st.insideSelect || HasFrom(a[..k])
    ensures |Fold(st, a, pick).chunks| == |st.chunks| + |a|
    ensures Fold(st, a, pick).chunks[|st.chunks| + k] == [Verbatim(a[k])]
  {
    ChunkAt(st, a, k, pick);
    InsideSelectAfter(st, a[..k], pick);
  }

  /** An IdentifierList before FROM in a walk without failure holds no
      plain token and becomes its marker lines, the first the dimension
      exactly when no list came before it. */
  lemma SelectListChunk(st: State, a: seq<Token>, k: nat, pick: InsertPosition)
    requires Covers(st.groups.Keys, a) && k < |a| && Fold(st, a, pick).failure.None?
    requires a[k].ListTok? && st.insideSelect && !HasFrom(a[..k])
    ensures !HasLeaf(a[k].items)
    ensures |Fold(st, a, pick).chunks| == |st.chunks| + |a|
    ensures Fold(st, a, pick).chunks[|st.chunks| + k]
      == ListPieces(a[k].items, st.isFirst && !ListBeforeFrom(a[..k]))
  {
    ChunkAt(st, a, k, pick);
    InsideSelectAfter(st, a[..k], pick);
    IsFirstAfter(st, a[..k], pick);
  }

  /** A group that does not occur in the stream keeps its children. */
  lemma {:induction false} GroupUntouched(st: State, a: seq<Token>, g: WhereGroup, pick: InsertPosition)
    requires Covers(st.groups.Keys, a) && g in st.groups && Occurrences(g, a) == 0
    ensures Fold(st, a, pick).groups[g] == st.groups[g]
    decreases |a|
  {
    if a != [] && st.failure.None? {
      CoversTail(st.groups.Keys, a);
      GroupUntouched(Step(st, a[0], pick), a[1..], g, pick);
    }
  }

  /** Every occurrence of a WHERE group in a walk without failure inserts
      one filter token into it and leaves the other children as they were. */
  lemma {:induction false} FilterCount(st: State, a: seq<Token>, g: WhereGroup, pick: InsertPosition)
    requires Covers(st.groups.Keys, a) && g in st.groups && Fold(st, a, pick).failure.None?
    ensures multiset(Fold(st, a, pick).groups[g])
      == multiset(st.groups[g]) + multiset(Repeat(Filter, Occurrences(g, a)))
    decreases |a|
  {
    if a != [] {
      var next := Step(st, a[0], pick);
      CoversTail(st.groups.Keys, a);
      FilterCount(next, a[1..], g, pick);
      assert Fold(st, a, pick) == Fold(next, a[1..], pick);
      if a[0] == WhereTok(g) {
        InsertClampedAdds(st.groups[g], pick(|st.chunks|, st.groups[g]), Filter);
        assert next.groups[g] == InsertClamped(st.groups[g], pick(|st.chunks|, st.groups[g]), Filter);
        assert Repeat(Filter, Occurrences(g, a)) == [Filter] + Repeat(Filter, Occurrences(g, a[1..]));
        assert multiset(Repeat(Filter, Occurrences(g, a)))
          == multiset{Filter} + multiset(Repeat(Filter, Occurrences(g, a[1..])));
      } else {
        assert next.groups[g] == st.groups[g];
      }
    }
  }

  /** A WHERE group that occurs once (as sqlparse produces it), at k, ends
      with the filter inserted at the position sqlparse picks for its
      enumeration index, and is emitted at that index as its new children. */
  lemma WhereOnce(st: State, a: seq<Token>, k: nat, g: WhereGroup, pick: InsertPosition)
    requires Covers(st.groups.Keys, a) && k < |a| && a[k] == WhereTok(g)
    requires Occurrences(g, a) == 1 && Fold(st, a, pick).failure.None?
    ensures g in st.groups && |Fold(st, a, pick).chunks| == |st.chunks| + |a|
    ensures Fold(st, a, pick).groups[g] == WithFilter(st.groups[g], |st.chunks| + k, pick)
    ensures Fold(st, a, pick).chunks[|st.chunks| + k] == [Concat(Fold(st, a, pick).groups[g])]
  {
    WhereOnceAt(st, a, k, g, pick, |st.chunks| + k);
  }

  /** WhereOnce, with the enumeration index idx of token k named once. */
  lemma {:induction false} WhereOnceAt(st: State, a: seq<Token>, k: nat, g: WhereGroup, pick: InsertPosition, idx: nat)
    requires Covers(st.groups.Keys, a) && k < |a| && a[k] == WhereTok(g)
    requires Occurrences(g, a) == 1 && Fold(st, a, pick).failure.None?
    requires idx == |st.chunks| + k
    ensures g in st.groups && |Fold(st, a, pick).chunks| == |st.chunks| + |a|
    ensures Fold(st, a, pick).groups[g] == WithFilter(st.groups[g], idx, pick)
    ensures Fold(st, a, pick).chunks[idx] == [Concat(Fold(st, a, pick).groups[g])]
    decreases k
  {
    var next := Step(st, a[0], pick);
    var rest := a[1..];
    CoversTail(st.groups.Keys, a);
    assert Fold(st, a, pick) == Fold(next, rest, pick);
    FoldChunks(next, rest, pick);
    assert next.failure.None? && |Fold(next, rest, pick).chunks| == |next.chunks| + |rest|;
    StepChunks(st, a[0], pick);
    assert |next.chunks| == |st.chunks| + 1;
    if k == 0 {
      StepWhere(st, g, pick);
      GroupUntouched(next, rest, g, pick);
      assert Fold(next, rest, pick).chunks[..|next.chunks|][idx] == next.chunks[idx];
    } else {
      assert rest[k - 1] == a[k];
      OccurrencesAt(g, rest, k - 1);
      assert a[0] != WhereTok(g);
      assert next.groups[g] == st.groups[g];
      WhereOnceAt(next, rest, k - 1, g, pick, idx);
    }
  }
}





/** The token stream the two select-list rewriters walk: the top-level
    tokens of the statements sqlparse has already parsed and grouped.
    The grouping and sqlparse's name accessors are inputs here; each
    identifier carries what its accessors return. */
module SqlTokens {
  import opened Base
  import opened Text

  /** A WHERE group. Its children are kept as their rendered texts; the
      rewriters append (or insert) the filter marker into this list in
      place, so the group is an object. */
  class WhereGroup {
    var tokens: seq<string>

    constructor (children: seq<string>)
      ensures tokens == children
    {
      tokens := children;
    }

    /** tokens.insert(i, t): an index past the end appends. */
    method Insert(i: nat, t: string)
      modifies this
      ensures tokens == InsertClamped(old(tokens), i, t)
    {
      var p := if i <= |tokens| then i else |tokens|;
      tokens := tokens[..p] + [t] + tokens[p..];
    }

    /** tokens.append(t) */
    method Append(t: string)
      modifies this
      ensures tokens == old(tokens) + [t]
    {
      tokens := tokens + [t];
    }
  }

  /** The tree `_parse_ts` walks: the first child of a group (its text and
      whether it is a Function or Operation) and what its last child is. */
  datatype TsNode = TsNode(op: string, opIsCall: bool, last: TsLast)
  datatype TsLast = NestedIdent(node: TsNode) | OtherLast

  /** The type of an identifier's first child, as `_parse_identifier`
      dispatches on it. */
  datatype Head =
    | PlainHead
    | CaseHead(caseText: string)
      // a Function or Operation: its text and the identifier's last child
    | CallHead(call: string, last: TsLast)
      // a Parenthesis: its text and get_name() of the identifier's last child
    | ParenHead(parens: string, lastName: string)

  /** An sqlparse Identifier (or other token group), with the values of
      `_get_first_name()`, `get_real_name()`, `get_name()`, `get_alias()`
      and `str()`. In sqlparse `get_name()` is `get_alias() or
      get_real_name()`; here `name` is a field of its own, not tied to
      `alias` and `realName`, so a statement that needs the tie says so. */
  datatype Ident = Ident(firstName: string, realName: string, name: string,
                         alias: Option<string>, head: Head, text: string)

  /** An element of `IdentifierList.get_identifiers()`. */
  datatype ListItem =
    | IdentItem(id: Ident)       // an Identifier
    | GroupItem(id: Ident)       // another token group, e.g. a Function
    | LeafItem(value: string)    // a single ungrouped token, e.g. a number

  datatype Token =
    | IdentTok(id: Ident)
    | ListTok(items: seq<ListItem>, text: string)
    | FromKw(text: string)       // the keyword FROM, in any case
    | WhereTok(group: WhereGroup)
    | Other(text: string)

  datatype Statement = Statement(tokens: seq<Token>)

  /** The text `<group>.value` of a list item. */
  function ItemText(item: ListItem): string
  {
    match item
    case IdentItem(id) => id.text
    case GroupItem(id) => id.text
    case LeafItem(value) => value
  }

  /** str(token) for every token but a WHERE group, whose text depends on
      its current children. */
  function Verbatim(t: Token): string
    requires !t.WhereTok?
  {
    match t
    case IdentTok(id) => id.text
    case ListTok(_, text) => text
    case FromKw(text) => text
    case Other(text) => text
  }

  /** chain.from_iterable(s.tokens for s in statements) */
  function Flatten(statements: seq<Statement>): seq<Token>
  {
    if statements == [] then [] else statements[0].tokens + Flatten(statements[1..])
  }

  /** The WHERE groups the stream holds. */
  function GroupsOf(toks: seq<Token>): (r: set<WhereGroup>)
    ensures Covers(r, toks)
    decreases |toks|
  {
    if toks == [] then {}
    else
      var rest := GroupsOf(toks[1..]);
      var r := if toks[0].WhereTok? then rest + {toks[0].group} else rest;
      assert Covers(r, toks) by {
        forall k | 0 <= k < |toks| && toks[k].WhereTok?
          ensures toks[k].group in r
        {
          if k > 0 {
            assert toks[k] == toks[1..][k - 1];
          }
        }
      }
      r
  }

  /** The children of every group in `gs`, as they are now. */
  function Snapshot(gs: set<WhereGroup>): (r: map<WhereGroup, seq<string>>)
    reads gs
    ensures r.Keys == gs
  {
    map g | g in gs :: g.tokens
  }

  /** How many times group g occurs in the stream. */
  function Occurrences(g: WhereGroup, toks: seq<Token>): nat
  {
    if toks == [] then 0
    else (if toks[0] == WhereTok(g) then 1 else 0) + Occurrences(g, toks[1..])
  }

  predicate HasFrom(toks: seq<Token>)
  {
    exists k :: 0 <= k < |toks| && toks[k].FromKw?
  }

  /** Some token satisfying p comes before any FROM keyword. */
  predicate SomeBeforeFrom(toks: seq<Token>, p: Token -> bool)
  {
    exists k :: 0 <= k < |toks| && p(toks[k]) && !HasFrom(toks[..k])
  }

  /** Every WHERE group of the stream is one of `keys`. */
  predicate Covers(keys: set<WhereGroup>, toks: seq<Token>)
  {
    forall k :: 0 <= k < |toks| && toks[k].WhereTok? ==> toks[k].group in keys
  }

  lemma CoversAppend(keys: set<WhereGroup>, a: seq<Token>, b: seq<Token>)
    ensures Covers(keys, a + b) <==> Covers(keys, a) && Covers(keys, b)
  {
    if Covers(keys, a) && Covers(keys, b) {
      forall k | 0 <= k < |a + b| && (a + b)[k].WhereTok? ensures (a + b)[k].group in keys {
        if k >= |a| { assert (a + b)[k] == b[k - |a|]; }
      }
    }
    if Covers(keys, a + b) {
      forall k | 0 <= k < |b| && b[k].WhereTok? ensures b[k].group in keys {
        assert b[k] == (a + b)[|a| + k];
      }
      forall k | 0 <= k < |a| && a[k].WhereTok? ensures a[k].group in keys {
        assert a[k] == (a + b)[k];
      }
    }
  }

  lemma CoversTail(keys: set<WhereGroup>, toks: seq<Token>)
    requires toks != [] && Covers(keys, toks)
    ensures Covers(keys, toks[1..])
    ensures toks[0].WhereTok? ==> toks[0].group in keys
  {
    assert toks == [toks[0]] + toks[1..];
    CoversAppend(keys, [toks[0]], toks[1..]);
  }

  lemma HasFromCons(a: seq<Token>)
    requires a != []
    ensures HasFrom(a) <==> a[0].FromKw? || HasFrom(a[1..])
  {
    if HasFrom(a) && !a[0].FromKw? {
      var k :| 0 <= k < |a| && a[k].FromKw?;
      assert a[1..][k - 1] == a[k];
    }
    if HasFrom(a[1..]) {
      var k :| 0 <= k < |a[1..]| && a[1..][k].FromKw?;
      assert a[k + 1] == a[1..][k];
    }
  }

  lemma SomeBeforeFromCons(a: seq<Token>, p: Token -> bool)
    requires a != []
    ensures SomeBeforeFrom(a, p) <==> p(a[0]) || (!a[0].FromKw? && SomeBeforeFrom(a[1..], p))
  {
    if SomeBeforeFrom(a, p) && !p(a[0]) {
      var k :| 0 <= k < |a| && p(a[k]) && !HasFrom(a[..k]);
      assert k > 0;
      assert a[..k][0] == a[0];
      assert a[1..][k - 1] == a[k];
      var tail := a[1..][..k - 1];
      forall i | 0 <= i < |tail| ensures !tail[i].FromKw? {
        assert tail[i] == a[..k][i + 1];
      }
    }
    if p(a[0]) {
      assert !HasFrom(a[..0]);
    } else if !a[0].FromKw? && SomeBeforeFrom(a[1..], p) {
      var k :| 0 <= k < |a[1..]| && p(a[1..][k]) && !HasFrom(a[1..][..k]);
      assert a[k + 1] == a[1..][k];
      var prefix := a[..k + 1];
      forall i | 0 <= i < |prefix| ensures !prefix[i].FromKw? {
        if i > 0 { assert prefix[i] == a[1..][..k][i - 1]; }
      }
    }
  }

  predicate NonEmptyList(t: Token)
  {
    t.ListTok? && t.items != []
  }

  /** Some non-empty IdentifierList comes before any FROM keyword. */
  predicate ListBeforeFrom(a: seq<Token>)
  {
    SomeBeforeFrom(a, NonEmptyList)
  }

  /** list.insert(i, t) on s, which clamps i to the length. */
  function InsertClamped(s: seq<string>, i: nat, t: string): (r: seq<string>)
    ensures |r| == |s| + 1
  {
    var p := if i <= |s| then i else |s|;
    s[..p] + [t] + s[p..]
  }

  /** Inserting adds exactly the one element and loses none. */
  lemma InsertClampedAdds(s: seq<string>, i: nat, t: string)
    ensures multiset(InsertClamped(s, i, t)) == multiset(s) + multiset{t}
  {
    var p := if i <= |s| then i else |s|;
    assert s == s[..p] + s[p..];
  }

  lemma OccurrencesAppend(g: WhereGroup, a: seq<Token>, b: seq<Token>)
    ensures Occurrences(g, a + b) == Occurrences(g, a) + Occurrences(g, b)
  {
    if a == [] {
      assert a + b == b;
    } else {
      assert (a + b)[1..] == a[1..] + b;
      OccurrencesAppend(g, a[1..], b);
    }
  }

  /** A group that occurs at some position occurs at least once. */
  lemma {:induction false} OccurrencesAt(g: WhereGroup, a: seq<Token>, k: nat)
    requires k < |a| && a[k] == WhereTok(g)
    ensures Occurrences(g, a) >= 1
    decreases k
  {
    if k > 0 {
      assert a[1..][k - 1] == a[k];
      OccurrencesAt(g, a[1..], k - 1);
    }
  }

  /** A group that occurs once in the stream occurs once up to that
      occurrence, and not before it. */
  lemma OnceUpTo(g: WhereGroup, a: seq<Token>, k: nat)
    requires k < |a| && a[k] == WhereTok(g) && Occurrences(g, a) == 1
    ensures Occurrences(g, a[..k + 1]) == 1 && Occurrences(g, a[..k]) == 0
  {
    assert a == a[..k + 1] + a[k + 1..];
    OccurrencesAppend(g, a[..k + 1], a[k + 1..]);
    assert a[..k + 1] == a[..k] + [a[k]];
    OccurrencesAppend(g, a[..k], [a[k]]);
    assert Occurrences(g, [a[k]]) == 1 by {
      assert [a[k]][1..] == [];
    }
  }

  /** The comparison token both rewriters add to every WHERE group. */
  const Filter: string := "AND @FILTER@\n"

  /** The output pieces of a run, one chunk per input token, in order. */
  function Joined(chunks: seq<seq<string>>): seq<string>
  {
    if chunks == [] then [] else Joined(chunks[..|chunks| - 1]) + chunks[|chunks| - 1]
  }

  lemma JoinedSnoc(chunks: seq<seq<string>>, c: seq<string>)
    ensures Joined(chunks + [c]) == Joined(chunks) + c
  {
    assert (chunks + [c])[..|chunks|] == chunks;
  }
}

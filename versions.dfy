/** The two rewriters side by side on a select list. */
module Versions {
  import opened Markers
  import opened SqlTokens
  import C = CautilsParser
  import N = NsqlParser

  /** A qualified plain column whose alias slot is the same in both. The
      last conjunct is sqlparse's own definition of `get_name()` (the alias,
      or else the real name), which every real Identifier satisfies; the
      model's `Ident` does not build it in. */
  predicate Qualified(item: ListItem)
  {
    item.IdentItem? && item.id.head.PlainHead?
    && item.id.firstName != item.id.realName && item.id.name == N.Attr(item.id)
  }

  /** On qualified columns whose name is what `get_alias() or real_name`
      gives, both rewriters write the same lines. */
  lemma SameLinesWhenQualified(items: seq<ListItem>, isFirst: bool)
    requires forall j :: 0 <= j < |items| ==> Qualified(items[j])
    ensures !N.HasLeaf(items)
    ensures C.ListPieces(items, isFirst) == N.ListPieces(items, isFirst)
  {
    var cs := C.ListPieces(items, isFirst);
    var ns := N.ListPieces(items, isFirst);
    forall j | 0 <= j < |items|
      ensures cs[j] == ns[j]
    {
      var id := items[j].id;
      assert C.Wrap(items[j]) == id;
      assert C.PlainSelect(id) == id.firstName + "." + id.realName;
    }
  }

  /** On an unqualified column (its first name is its real name) they
      differ: the current one selects the bare name, the older one
      `<name>.<name>`. */
  lemma UnqualifiedDiffers(items: seq<ListItem>, isFirst: bool, j: nat)
    requires j < |items| && items[j].IdentItem? && items[j].id.head.PlainHead?
    requires items[j].id.firstName == items[j].id.realName
    requires ':' !in items[j].id.name && ':' !in N.Attr(items[j].id)
    ensures C.ParseIdentifier(items[j].id, isFirst && j == 0) != N.ItemMarker(items, j, isFirst)
    ensures DecodeSelect(C.ParseIdentifier(items[j].id, isFirst && j == 0)).Some?
    ensures DecodeSelect(C.ParseIdentifier(items[j].id, isFirst && j == 0)).value.select
      == items[j].id.firstName
    ensures DecodeSelect(N.ItemMarker(items, j, isFirst)).Some?
    ensures DecodeSelect(N.ItemMarker(items, j, isFirst)).value.select
      == items[j].id.firstName + "." + items[j].id.firstName
  {
    var id := items[j].id;
    var dim := isFirst && j == 0;
    C.ParseIdentifierColumn(id, dim);
    DecodeCreateSelect(dim, id.firstName + "." + id.realName, N.Attr(id));
    assert |id.firstName + "." + id.firstName| != |id.firstName|;
  }
}

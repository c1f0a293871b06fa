/** The NSQL select-column marker both parser versions emit,
    `@SELECT:DIM|DIM_PROP:USER_DEF:IMPLIED:T:<select>:<alias>@`,
    and a decoder that reads one back. */
module Markers {
  import opened Base
  import opened Text

  /** What one marker says: whether the column is the dimension (the first
      column) or a property of it, the selected expression and its alias. */
  datatype Column = Column(isDim: bool, select: string, alias: string)

  /** The marker up to and including "DIM", and its fixed part after the kind. */
  const Lead: string := "@SELECT:DIM"
  const Trail: string := ":USER_DEF:IMPLIED:T:"
  const DimHead: string := Lead + Trail
  const PropHead: string := Lead + "_PROP" + Trail

  /** create_select: the kind slot is "DIM", with "_PROP" appended when
      the column is not the dimension; the rest of the marker is fixed. */
  function CreateSelect(isDim: bool, select: string, alias: string): string
  {
    (if isDim then DimHead else PropHead) + select + ":" + alias + "@"
  }

  /** A marker starts with the dimension head exactly for the dimension,
      with the property head otherwise, and ends in '@'. */
  lemma CreateSelectHead(isDim: bool, select: string, alias: string)
    ensures var r := CreateSelect(isDim, select, alias);
      StartsWith(r, if isDim then DimHead else PropHead)
      && (StartsWith(r, DimHead) <==> isDim)
      && r != [] && r[|r| - 1] == '@'
  {
    var head := if isDim then DimHead else PropHead;
    var r := CreateSelect(isDim, select, alias);
    assert r[..|head|] == head;
    if !isDim {
      DimHeadNotPrefix(r);
    }
  }

  /** Reads a marker back: the select part runs up to the last ':' before
      the closing '@', so an alias holding no ':' is recovered exactly. */
  function DecodeSelect(m: string): Option<Column>
  {
    if m == [] || m[|m| - 1] != '@' then None
    else
      var body := m[..|m| - 1];
      if StartsWith(body, DimHead) then Fields(true, body[|DimHead|..])
      else if StartsWith(body, PropHead) then Fields(false, body[|PropHead|..])
      else None
  }

  function Fields(isDim: bool, rest: string): Option<Column>
  {
    match LastIndexOf(':', rest)
    case None => None
    case Some(i) => Some(Column(isDim, rest[..i], rest[i + 1..]))
  }

  /** Splitting a marker into its head and the part after it. */
  lemma SplitMarker(head: string, select: string, alias: string)
    ensures var m := head + select + ":" + alias + "@";
      var body := m[..|m| - 1];
      m != [] && m[|m| - 1] == '@' && StartsWith(body, head)
      && body[|head|..] == select + ":" + alias
  {
    var m := head + select + ":" + alias + "@";
    assert m[..|m| - 1] == head + (select + ":" + alias);
  }

  /** The last ':' of `select:alias` is the separator when the alias has none. */
  lemma {:induction false} LastColon(select: string, alias: string)
    requires ':' !in alias
    ensures var rest := select + ":" + alias;
      LastIndexOf(':', rest) == Some(|select|)
      && rest[..|select|] == select && rest[|select| + 1..] == alias
  {
    var rest := select + ":" + alias;
    assert rest[|select|] == ':';
    assert rest[|select| + 1..] == alias;
  }

  lemma DimHeadNotPrefix(body: string)
    requires StartsWith(body, PropHead)
    ensures !StartsWith(body, DimHead)
  {
    assert body[11] == PropHead[11] == "_PROP"[0];
    assert DimHead[11] == Trail[0];
  }

  /** The fields of `select:alias` are that column when the alias has no ':'. */
  lemma FieldsOfColon(isDim: bool, select: string, alias: string)
    requires ':' !in alias
    ensures Fields(isDim, select + ":" + alias) == Some(Column(isDim, select, alias))
  {
    LastColon(select, alias);
  }

  /** Decoding a marker gives back the flag, the select text and the alias
      that made it, whenever the alias holds no ':'. */
  lemma DecodeCreateSelect(isDim: bool, select: string, alias: string)
    requires ':' !in alias
    ensures DecodeSelect(CreateSelect(isDim, select, alias)) == Some(Column(isDim, select, alias))
  {
    var head := if isDim then DimHead else PropHead;
    var m := CreateSelect(isDim, select, alias);
    assert m == head + select + ":" + alias + "@";
    SplitMarker(head, select, alias);
    var body := m[..|m| - 1];
    if !isDim {
      DimHeadNotPrefix(body);
    }
    assert DecodeSelect(m) == Fields(isDim, body[|head|..]);
    FieldsOfColon(isDim, select, alias);
  }


  lemma FieldsInverse(isDim: bool, rest: string)
    requires Fields(isDim, rest).Some?
    ensures var c := Fields(isDim, rest).value;
      c.isDim == isDim && rest == c.select + ":" + c.alias && ':' !in c.alias
  {
    var i := LastIndexOf(':', rest).value;
    assert rest == rest[..i] + ":" + rest[i + 1..];
  }

  lemma DecodedWithHead(head: string, isDim: bool, m: string)
    requires m != [] && m[|m| - 1] == '@'
    requires StartsWith(m[..|m| - 1], head)
    requires Fields(isDim, m[..|m| - 1][|head|..]).Some?
    ensures var c := Fields(isDim, m[..|m| - 1][|head|..]).value;
      head + c.select + ":" + c.alias + "@" == m && ':' !in c.alias && c.isDim == isDim
  {
    var body := m[..|m| - 1];
    var rest := body[|head|..];
    var c := Fields(isDim, rest).value;
    FieldsInverse(isDim, rest);
    assert body == head + rest;
    calc {
      head + c.select + ":" + c.alias + "@";
      { assert head + c.select + ":" + c.alias == head + (c.select + ":" + c.alias); }
      head + (c.select + ":" + c.alias) + "@";
      head + rest + "@";
      body + "@";
      m;
    }
  }

  /** Conversely, every string that decodes is the marker of what it decodes to. */
  lemma CreateSelectDecode(m: string)
    requires DecodeSelect(m).Some?
    ensures var c := DecodeSelect(m).value;
      CreateSelect(c.isDim, c.select, c.alias) == m && ':' !in c.alias
  {
    if StartsWith(m[..|m| - 1], DimHead) {
      DecodedWithHead(DimHead, true, m);
    } else {
      DecodedWithHead(PropHead, false, m);
    }
  }

  /** The property head is the dimension head with "_PROP" after "DIM". */
  lemma PropHeadInsertsSuffix()
    ensures |DimHead| >= 11 && DimHead[..11] == "@SELECT:DIM"
    ensures PropHead == DimHead[..11] + "_PROP" + DimHead[11..]
  {
    assert DimHead[..|Lead|] == Lead;
    assert DimHead[|Lead|..] == Trail;
  }

  /** Inserting into a head at n, before a tail, is inserting into the
      whole string at n. */
  lemma InsertBeforeTail(head: string, ins: string, tail: string, n: nat)
    requires n <= |head|
    ensures head[..n] + ins + head[n..] + tail == (head + tail)[..n] + ins + (head + tail)[n..]
  {
    assert (head + tail)[..n] == head[..n];
    assert (head + tail)[n..] == head[n..] + tail;
  }

  /** The two kinds differ only in the "_PROP" after "DIM": nothing else
      in the marker depends on the flag. */
  lemma PropInsertsSuffix(select: string, alias: string)
    ensures var dim := CreateSelect(true, select, alias);
      CreateSelect(false, select, alias) == dim[..11] + "_PROP" + dim[11..]
  {
    var tail := select + ":" + alias + "@";
    assert CreateSelect(true, select, alias) == DimHead + tail;
    assert CreateSelect(false, select, alias) == PropHead + tail;
    PropHeadInsertsSuffix();
    InsertBeforeTail(DimHead, "_PROP", tail, 11);
  }


}

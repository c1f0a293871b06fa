/** Shell completion and help text of the `--sort` option
    (cautils/opts.py). The sort directions are the member names of an enum
    that lives outside this model, so they are a parameter. */
module SortOpts {
  import opened Text

  /** `:<member>` for every member, in order. */
  function Suffixes(members: seq<string>): (r: seq<string>)
    ensures |r| == |members|
  {
    seq(|members|, i requires 0 <= i < |members| => ":" + members[i])
  }

  /** _complete_sort_opt: nothing once the text already ends in
      `:<member>`; otherwise the text completed with each `:<member>`. */
  function CompleteSortOpt(incomplete: string, members: seq<string>): (r: seq<string>)
    ensures r == [] <==> members == [] || EndsWithAny(incomplete, Suffixes(members))
    ensures !EndsWithAny(incomplete, Suffixes(members)) ==>
      |r| == |members|
      && forall i :: 0 <= i < |r| ==>
           StartsWith(r[i], incomplete) && EndsWith(r[i], ":" + members[i])
           && |r[i]| == |incomplete| + 1 + |members[i]|
  {
    var suffixes := Suffixes(members);
    if EndsWithAny(incomplete, suffixes) then []
    else
      var r := seq(|suffixes|, i requires 0 <= i < |suffixes| => incomplete + suffixes[i]);
      assert forall i :: 0 <= i < |r| ==>
        r[i][..|incomplete|] == incomplete && r[i][|r[i]| - |suffixes[i]|..] == suffixes[i];
      r
  }

  /** A completion it offers is complete: asked again, it offers nothing. */
  lemma CompletionIsFinal(incomplete: string, members: seq<string>, i: nat)
    requires i < |CompleteSortOpt(incomplete, members)|
    ensures CompleteSortOpt(CompleteSortOpt(incomplete, members)[i], members) == []
  {
    var c := CompleteSortOpt(incomplete, members)[i];
    assert Suffixes(members)[i] == ":" + members[i];
    assert EndsWith(c, Suffixes(members)[i]);
  }

  /** The metavar of the option: `COLUMN:[<members joined by |>]`. The
      member list can be read back from it, provided there is a member and
      none holds a `|`. */
  function SortMetavar(members: seq<string>): (r: string)
    ensures StartsWith(r, "COLUMN:[") && EndsWith(r, "]")
    ensures |r| >= 9 && r[8..|r| - 1] == Join("|", members)
    ensures members != [] && (forall i :: 0 <= i < |members| ==> '|' !in members[i]) ==>
      Split('|', r[8..|r| - 1]) == members
  {
    var r := "COLUMN:[" + Join("|", members) + "]";
    assert r[8..|r| - 1] == Join("|", members);
    if members != [] && forall i :: 0 <= i < |members| ==> '|' !in members[i] then
      SplitJoin('|', members);
      r
    else
      r
  }
}

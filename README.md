# cautils SQL-to-NSQL rewriting, sort completion and environments, in Dafny

This project models the core of `cautils`, a command-line toolkit for a
project-management server. Its main piece of logic is the rewriter that
turns a plain SQL query into an NSQL query. It walks the top-level tokens
that `sqlparse` has grouped, once, with two flags: `insideSelect` and
`isFirst`. It replaces every select-list column by a marker
`@SELECT:DIM|DIM_PROP:USER_DEF:IMPLIED:T:<select>:<alias>@`, followed by a
comma on all but the last column and a newline. It stops rewriting at
`FROM`. It adds the filter token `AND @FILTER@\n` to every `WHERE` group in
place. Every other token is echoed as it is.

The rewriter exists in two versions:

- `cautils/parser.py` is the current one (`CautilsParser`, with the
  walk's properties in `CautilsWalk`). It rewrites a lone Identifier as
  well as an IdentifierList. Its select part depends on the type of the
  identifier's first child: plain, CASE, function/operation, or
  parenthesis. It wraps list items that are not Identifiers, and it
  appends the filter at the end of the WHERE group.
- `nsql/parser.py` is the older one (`NsqlParser`, with `NsqlWalk`). It
  rewrites IdentifierLists only. It always writes `<table>.<real>` and
  takes the alias slot from `get_alias() or real_name`. It fails with an
  AttributeError on a list item that is a plain token. It inserts the
  filter where sqlparse's `insert_after` puts it.

`Versions` compares the two versions on a select list.

The supporting modules are these:

- `SqlTokens` is the token stream. An identifier carries what sqlparse's
  name accessors return for it. A WHERE group is an object (`WhereGroup`)
  whose children list the rewriters change in place.
- `Markers` holds the marker format, `create_select`, and a decoder
  (`DecodeSelect`) that is its inverse.
- `Text` holds the Python string operations the rewriter and the
  options call: join, endswith and rstrip. It also defines `StartsWith`,
  which contracts use, and `Split`, which Python code here never calls.
  `Split` is the inverse of join, used only to read member lists back in
  `SortOpts.SortMetavar` and `EnvConfig.UnknownEnv`.

Each `_convert` is an imperative method with a loop. It is proved against
`Fold`, a function that performs the same walk over values and emits one
output chunk per token. Lemmas about `Fold` state the rewriting properties
for a single token at position `k` of an arbitrary stream.

There are two smaller pieces:

- `SortOpts` models the shell completion and the metavar of the `--sort`
  option (`cautils/opts.py`). The sort-direction names are a parameter.
- `EnvConfig` models the named environments of the configuration file
  (`cautils/utils.py`). `Config` is the loaded object as a value, with
  `Created`, `Updated` and `Lookup` as its operations. The class `Envs`
  is the same object changed in place by `create_env` and
  `update_credentials`.

## Model

| member | source | states |
|---|---|---|
| Markers.CreateSelectHead | cautils/parser.py:21-22 | a marker starts with the dimension head exactly for a dimension and with the property head otherwise, and it ends in `@` |
| Markers.DecodeCreateSelect | cautils/parser.py:21-22 | a marker decodes back to its dimension flag, select text and alias, whenever the alias holds no `:` |
| Markers.CreateSelectDecode | cautils/parser.py:21-22 | every string that decodes as a marker is the marker of what it decodes to (the other direction of the round trip) |
| Markers.PropInsertsSuffix | cautils/parser.py:22 | the property marker is the dimension marker with `_PROP` inserted after `DIM` and nothing else changed |
| CautilsParser.ParseTsSpine | cautils/parser.py:25-37 | `_parse_ts` answers the innermost first child when it is a Function or Operation; otherwise it answers the first children along the nested chain, space-separated and right-stripped |
| CautilsParser.Wrap | cautils/parser.py:80-83 | an Identifier item is kept as it is; any other item becomes a plain identifier whose select text and name are the item's text |
| CautilsParser.ParseIdentifierColumn | cautils/parser.py:40-61 | the marker is a dimension exactly when `isFirst` holds, and it decodes to the branch's select and alias: plain gives the first name (or `<first>.<real>` when they differ) under `get_name()`; CASE gives its text; function/operation gives the `_parse_ts` text; parenthesis gives its text under the last child's name |
| CautilsParser.WrappedItemColumn | cautils/parser.py:80-84 | a list item that is not an Identifier selects its own text under its own text as alias, when that text holds no `:` |
| CautilsParser.ListPiecesLayout | cautils/parser.py:78-89 | every list line ends in a newline; it ends in `,\n` exactly when it is not the last; it is a dimension exactly when it is the first line and `isFirst` holds |
| CautilsParser.RenderList | cautils/parser.py:76-90 | the loop over a list yields the list's lines in order and clears `isFirst` exactly when the list is non-empty |
| CautilsParser.Step | cautils/parser.py:68-98 | one step of the walk changes no WHERE group other than the one it meets |
| CautilsParser.StepChunks | cautils/parser.py:68-98 | one step of the walk appends exactly one chunk and keeps the earlier ones |
| CautilsParser.ConvertToken | cautils/parser.py:69-98 | one pass of the loop emits what one `Step` of the walk emits, updates the flags as `Step` does, and leaves a WHERE group holding the `Step` children |
| CautilsParser.Convert | cautils/parser.py:64-98 | the pieces yielded are the walk's chunks in order; every WHERE group ends holding the walk's children for it, starting from its children before the call |
| CautilsParser.SqlToNsql | cautils/parser.py:101-109 | the output is the concatenation of the walk's chunks |
| CautilsParser.Fold | cautils/parser.py:67-98 | the walk neither adds nor drops WHERE groups |
| CautilsWalk.FoldSplit | cautils/parser.py:67-68 | walking statements one after another is walking their concatenated tokens |
| CautilsWalk.FoldChunks | cautils/parser.py:68-98 | exactly one chunk per token; earlier output is never rewritten |
| CautilsWalk.InsideSelectAfter | cautils/parser.py:91-92 | `insideSelect` ends false exactly when a FROM keyword was met, and it is never set back |
| CautilsWalk.IsFirstAfter | cautils/parser.py:84-86 | `isFirst` ends true exactly when no non-empty IdentifierList came before FROM; a lone Identifier never clears it |
| CautilsWalk.ChunkAt | cautils/parser.py:68-98 | the chunk for token k is what one step emits from the state after the tokens before k |
| CautilsWalk.SelectIdentifierChunk | cautils/parser.py:71-73 | a lone Identifier before FROM becomes one marker line, a dimension exactly when no list came before it |
| CautilsWalk.SelectListChunk | cautils/parser.py:75-90 | an IdentifierList before FROM becomes its list lines, the first a dimension exactly when no list came before it |
| CautilsWalk.EchoChunk | cautils/parser.py:91-98 | FROM, everything after FROM, and every token that is not an Identifier, an IdentifierList or a WHERE group is echoed as its own text |
| CautilsWalk.FilterCount | cautils/parser.py:93-97 | each occurrence of a WHERE group appends one filter token at its end; the children it had before are kept |
| CautilsWalk.GroupAt | cautils/parser.py:93-97 | at its k-th position a group holds its earlier children plus one filter per occurrence so far |
| CautilsWalk.StepWhere | cautils/parser.py:93-98 | the step of a WHERE group emits the group's children with the filter appended |
| CautilsWalk.WhereChunk | cautils/parser.py:93-98 | a WHERE group is emitted as the text of its children after the filter has been appended |
| CautilsWalk.WhereOnce | cautils/parser.py:93-98 | a WHERE group that occurs once is emitted as its old text followed by exactly one `AND @FILTER@\n`, and that is its final content |
| NsqlParser.Attr | nsql/parser.py:30 | an alias that is present and non-empty wins; otherwise the real name; so the result is empty exactly when both are |
| NsqlParser.MarkerDecodes | nsql/parser.py:27-35 | when the attribute holds no `:`, the marker of a list item decodes to `<table>.<real>` under the attribute, a dimension exactly for the first item while `isFirst` holds |
| NsqlParser.ItemLineLayout | nsql/parser.py:27-38 | every list line ends in a newline; it ends in `,\n` exactly when it is not the last; it is a dimension exactly when it is the first line and `isFirst` holds; its marker decodes to `<table>.<real>` under the alias (or the real name when the alias is absent or empty), a dimension exactly for the first line while `isFirst` holds |
| NsqlParser.RenderList | nsql/parser.py:25-39 | the loop fails with AttributeError `_get_first_name` exactly when some item is a plain token; otherwise it yields the list's lines and clears `isFirst` when the list is non-empty |
| NsqlParser.Step | nsql/parser.py:25-47 | one step of the walk changes no WHERE group other than the one it meets |
| NsqlParser.StepChunks | nsql/parser.py:25-47 | a step that does not fail appends exactly one chunk and keeps the earlier ones |
| NsqlParser.StepWhere | nsql/parser.py:42-47 | the step of a WHERE group inserts the filter at the position picked for the step's index and emits the new children |
| NsqlParser.ConvertToken | nsql/parser.py:25-47 | one pass of the loop fails, emits and updates flags and WHERE children exactly as one `Step` of the walk does, with the insertion position taken at the enumeration index |
| NsqlParser.Convert | nsql/parser.py:19-47 | the walk fails exactly when `Fold` does, with its error; otherwise the pieces are the chunks in order; every WHERE group ends holding the walk's children for it |
| NsqlParser.SqlToNsql | nsql/parser.py:50-58 | the output is the concatenation of the chunks, or the walk's failure |
| NsqlParser.Fold | nsql/parser.py:22-47 | the walk neither adds nor drops WHERE groups |
| NsqlWalk.FoldSplit | nsql/parser.py:22-24 | walking statements one after another is walking their concatenated tokens; a failure is carried through unchanged |
| NsqlWalk.FailsIff | nsql/parser.py:25-30 | the walk fails exactly when an IdentifierList holding a plain token comes before any FROM |
| NsqlWalk.FoldChunks | nsql/parser.py:22-47 | without a failure, exactly one chunk per token, so the number of chunks before a token is its enumeration index; earlier output is never rewritten |
| NsqlWalk.InsideSelectAfter | nsql/parser.py:40-41 | `insideSelect` ends false exactly when a FROM keyword was met |
| NsqlWalk.IsFirstAfter | nsql/parser.py:31-33 | `isFirst` ends true exactly when no non-empty IdentifierList came before FROM; a lone Identifier never clears it |
| NsqlWalk.ChunkAt | nsql/parser.py:22-47 | in a walk without failure, the chunk for token k is what one step emits from the state after the tokens before k |
| NsqlWalk.EchoChunk | nsql/parser.py:40-47 | a lone Identifier, even before FROM, is echoed as its text, and so is every other token that is not a WHERE group or a select-part IdentifierList |
| NsqlWalk.SelectListChunk | nsql/parser.py:25-39 | an IdentifierList before FROM in a walk without failure holds no plain token and becomes its list lines, the first a dimension exactly when no list came before it |
| NsqlWalk.GroupUntouched | nsql/parser.py:42-46 | a group that does not occur in the stream keeps its children |
| NsqlWalk.FilterCount | nsql/parser.py:42-46 | each occurrence of a WHERE group adds one filter token, and the group's other children stay the same (as a multiset) |
| NsqlWalk.WhereOnce | nsql/parser.py:42-47 | a WHERE group that occurs once is emitted at its index as its final children, which are its old children with the filter inserted at the position picked for that index |
| Versions.SameLinesWhenQualified | nsql/parser.py:28-35 | on qualified plain columns whose name is the alias or real name, both versions write the same lines |
| Versions.UnqualifiedDiffers | nsql/parser.py:32-35 | on a column whose first name is its real name the versions differ: the current one selects the bare name, the older one `<name>.<name>` |
| SortOpts.CompleteSortOpt | cautils/opts.py:74-78 | empty exactly when the text already ends in `:<member>` (or there are no members); otherwise one completion per member, in order, each the text followed by `:<member>` |
| SortOpts.CompletionIsFinal | cautils/opts.py:75-78 | completing an offered completion again offers nothing |
| SortOpts.SortMetavar | cautils/opts.py:83 | the metavar is `COLUMN:[`, then the members joined by the pipe character, then `]`; splitting the part between the brackets at `|` gives the members back, in order, when there is one and none holds a pipe |
| EnvConfig.Created | cautils/utils.py:69-74 | the entry for the name is exactly url, username and password; every other entry is unchanged; a new name goes last; the names stay distinct and match the entries |
| EnvConfig.Updated | cautils/utils.py:53-58 | a missing name is a KeyError for that name; otherwise the given keys take the new values, the env's other keys and every other env are unchanged, and the names keep their order |
| EnvConfig.Lookup | cautils/utils.py:90-96 | an unknown name is a BadParameter listing the known names; otherwise (url, username, password) of that env, or a KeyError for the first of them that is missing |
| EnvConfig.LookupCreated | cautils/utils.py:73 | looking up a created env gives back its credentials |
| EnvConfig.LookupCreatedOther | cautils/utils.py:73 | creating an env does not change the lookup of another existing env |
| EnvConfig.LookupUpdated | cautils/utils.py:56 | updating credentials changes exactly the given ones in the lookup |
| EnvConfig.UnknownEnv | cautils/utils.py:94 | the BadParameter message is the name and ` is not one of: `, then the known names joined by `,`; splitting that part at `,` gives the names back, in order, when there is one and none holds a comma |
| EnvConfig.UnknownEnvLists | cautils/utils.py:91-94 | looking up an unknown name fails with a BadParameter whose message starts with the name and lists the known names, in order, separated by `,` |
| SqlTokens.WhereGroup.Append | cautils/parser.py:95 | the group's children become the old ones followed by the new token |
| SqlTokens.WhereGroup.Insert | nsql/parser.py:44 | the new token is inserted at the given position, or appended past the end as `list.insert` does |
| SqlTokens.InsertClampedAdds | nsql/parser.py:44 | an insertion adds exactly the new token to the children, as a multiset |
| EnvConfig.Envs.CreateEnv | cautils/utils.py:69-74 | changes the object in place as `Created` says and returns the same object |
| EnvConfig.Envs.UpdateCredentials | cautils/utils.py:53-58 | merges in place as `Updated` says and returns the object; on a missing name it fails with KeyError and changes nothing |

## Left out

- sqlparse itself is not modelled: parsing, grouping and the keyword match in `is_from_token`. The stream of top-level tokens is an input. So are the values of `_get_first_name`, `get_real_name`, `get_name` and `get_alias`.
- CautilsParser.Wrap, CautilsParser.WrappedItemColumn: the Identifier built around a plain list item takes the item's text as it is for its first name, real name and name. sqlparse's accessors strip quotes from these names, and that is not modelled. So on `SELECT a, 'x'`, `cautils/parser.py` writes `…T:x:x@` for the second item, while the model writes `…T:'x':'x'@`.
- CautilsParser.ParseTsSpine: `_parse_ts` and the parenthesis branch remove the last child of the identifier with `tokens.pop()`. The rewriter never prints that identifier afterwards, so this change is not modelled. The tree is only the chain of first and last children.
- NsqlParser.Convert: the position where sqlparse's `insert_after` inserts the filter depends on its own index search. It is a parameter `pick`, and an index past the end appends, as `list.insert` does.
- CautilsParser.ParseIdentifierColumn, CautilsParser.WrappedItemColumn, NsqlParser.ItemLineLayout, NsqlParser.MarkerDecodes: the decoded column is stated only when the alias (for a wrapped item, its text) holds no `:`. With a `:` in the alias, the marker cannot be split back into select and alias.
- CautilsParser.ParseIdentifierColumn, CautilsParser.SelectAndAlias: in the parenthesis branch, `cautils/parser.py` calls `get_name()` on the identifier's last child. When that child is a plain sqlparse token, which has no `get_name`, the program fails with AttributeError. The model takes the last child's name as a given string, so it always writes a marker and does not model that failure.
- `_get_first_name`, `get_real_name` and `get_name` are modelled as always returning a string; their `None` results are not modelled. `get_alias` is an `Option<string>`, and `NsqlParser.Attr` handles its `None`.
- Output is built eagerly. The generators' laziness is not observable through `"".join`.
- SortOpts: the member names of `SortDirection` are a parameter, because that enum is not part of this model. The typer option declarations around them are not modelled.
- EnvConfig: reading and writing the configuration file is not modelled (`get_config_path`, `get_envs`, `save_envs`). The prompts (`ask_for_creds`, `ask`) and `complete_env` are not modelled either. The state is the loaded object.
- EnvConfig.Lookup: only the branch taken when a non-empty name is given. The prompt-and-save branch for no name is I/O.
- cautils/xog.py, nsql/xog.py, cautils/thin_xml.py, the command-line files and cautils/exceptions.py are not part of this model. They are an HTTP/SOAP client, output rendering, command wiring and exception declarations.
- The docstring constraints of `sql_to_nsql` (a WHERE clause is required; no CTEs or sub-queries) are not checked by the source, so the model does not reject such input either.

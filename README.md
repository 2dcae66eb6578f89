# GraphQL query builder, modelled in Dafny

This project models the query-string builder of `GraphQL.Client` (the `GraphQL.Client/QueryBuilder/`
classes). Five builder objects make up a query:

- a query node (`GraphQLQueryBuilder`) has a name, an argument set, a field selection, child nodes
  added by `Query`, a nesting depth and a link to the tree's root;
- an argument set (`GraphQLArgumentsBuilder`) holds declared variables and named raw arguments;
- a variable (`GraphQLVariableBuilder`) renders as `$name:Type[!][ = default]`;
- a selection (`GraphQLSelectBuilder`) holds fields in order, and each field (`GraphQLFieldBuilder`) owns
  a nested selection that is written only when it is not empty.

`Build` serialises the tree from its root, in one of two layouts. Compact puts a space between parts and
no prefix. Indented puts a line feed between parts and four spaces per level of prefix.

The model has two layers.

- **Values** (`Text`, `VariableBuilder`, `ArgumentsBuilder`, `SelectBuilder`, `QueryBuilder`). One
  datatype per builder, read as the serialiser sees it, plus the render functions. Each render function
  has two reference definitions beside it:
  - a list of indented lines (`Render(NodeLines(t), fmt)`), which fixes the exact layout;
  - a layout-free *skeleton*, the rendering with every space and line feed removed.
  Lemmas tie each rendering to both.
- **Objects** (`BuilderHeap`). Every builder object lives in one arena, and a handle is an index. The
  class `BuilderHeap.Builders` holds the arena in fields that its methods update in place. A variable,
  field or child returned by `Var`, `Field` or `Query` is therefore the same object that its owner's list
  holds, so changing it through the handle changes what the owner renders. Each method's new state is a
  pure operation on the old arena. Lemmas prove that every operation keeps the arena's invariant, and say
  what each one does to the rendered tree and what it leaves alone.

`Scenarios` states the documents of the repository's builder tests, plus small cases of the layout
rules. `Replay` drives `CreateQueryTest`'s calls through the class one by one and proves that the child
`Query` returns builds both expected documents.

**Where the code and its tests part.** `TestGithubGraphQlQuery` (`QueryBuilderTests.cs:123`) expects a
space between a node's last field and its first child (`name pullRequests`). The code at
`GraphQLQueryBuilder.cs:66` writes nothing between them. The model keeps both renderings:

- `QueryBuilder.WrittenChildBuild` is the code as written. It is what the builder objects' `Build` returns
  (`BuilderHeap.BuildOf`, `BuilderHeap.Builders.Build`).
- `QueryBuilder.ChildBuild` is the corrected rendering, with the line-by-line reference beside it.

Without layout the two are equal on every tree. In full they agree on every tree in which no node has
both fields and children (`QueryBuilder.WrittenAgrees`). Both organization tests are such trees. See
"## Findings".

## Model

| member | source | states |
|---|---|---|
| `Text.Separator` | GraphQL.Client/QueryBuilder/GraphQLQueryBuilder.cs:52-57 | The separator is a single space exactly in the compact layout, otherwise the line feed. |
| `Text.Indent` | GraphQL.Client/QueryBuilder/GraphQLQueryBuilder.cs:53-58 | The prefix at nesting `n` is empty when compact and `n * 4` spaces when indented. |
| `Text.JoinOneLine` | GraphQL.Client/QueryBuilder/GraphQLSelectBuilder.cs:31 | Joining parts that hold no line feed, with a separator that holds none, gives a string that holds none. |
| `Text.AllSpaces` | GraphQL.Client/QueryBuilder/GraphQLQueryBuilder.cs:58 | Every character of the padding `"".PadLeft(n)` is a space; its length is `n`. |
| `VariableBuilder.New` | GraphQL.Client/QueryBuilder/GraphQLVariableBuilder.cs:5-15 | A fresh variable keeps the given name and default, has type `String` and is not required. |
| `VariableBuilder.Object` | GraphQL.Client/QueryBuilder/GraphQLVariableBuilder.cs:32-36 | The type becomes `ofType`, or `Object` when `ofType` is empty or white space. Nothing else changes. |
| `VariableBuilder.Required` | GraphQL.Client/QueryBuilder/GraphQLVariableBuilder.cs:38-42 | The variable becomes required. Nothing else changes. |
| `VariableBuilder.Build` | GraphQL.Client/QueryBuilder/GraphQLVariableBuilder.cs:44-45 | A declaration starts with `$`. Its content is fixed by `VariableBuilder.ParseBuild`. |
| `VariableBuilder.ScalarTypes` | GraphQL.Client/QueryBuilder/GraphQLVariableBuilder.cs:17-30 | `String`, `Int`, `Float`, `Boolean` and `ID` set exactly their own name as the type. |
| `VariableBuilder.LastTypeWins` | GraphQL.Client/QueryBuilder/GraphQLVariableBuilder.cs:32-42 | Of two type settings the later decides. Setting the type commutes with marking the variable required. |
| `VariableBuilder.RequiredIdempotent` | GraphQL.Client/QueryBuilder/GraphQLVariableBuilder.cs:38-42 | Marking a variable required twice is the same as marking it once. |
| `VariableBuilder.WhiteSpaceDefaultOmitted` | GraphQL.Client/QueryBuilder/GraphQLVariableBuilder.cs:45 | A white-space default is left out of the declaration exactly like an empty one. |
| `VariableBuilder.Shown` | GraphQL.Client/QueryBuilder/GraphQLVariableBuilder.cs:45 | What the declaration shows: the same name, type and flag, and an empty default when the default is white space. |
| `VariableBuilder.ParseBuild` | GraphQL.Client/QueryBuilder/GraphQLVariableBuilder.cs:44-45 | Reading back a declaration gives its name, its type, `!` exactly when required, and the shown default, in that order. This holds for every name without `:` and every type without `!` or a space. |
| `ArgumentsBuilder.SetParam` | GraphQL.Client/QueryBuilder/GraphQLArgumentsBuilder.cs:20-30 | Afterwards the key maps to the value and every other key is unchanged. A new key goes last. An existing key keeps its position and every key its place. |
| `ArgumentsBuilder.SetParamUnique` | GraphQL.Client/QueryBuilder/GraphQLArgumentsBuilder.cs:27-30 | With distinct keys before, the keys stay distinct. The set key has exactly one entry, and every other key its old count. |
| `ArgumentsBuilder.EntryBuild` | GraphQL.Client/QueryBuilder/GraphQLArgumentsBuilder.cs:38 | `key:value` is one character longer than key and value together. The value is copied raw (`ArgumentsBuilder.ParseEntryBuild`). |
| `ArgumentsBuilder.ParseEntryBuild` | GraphQL.Client/QueryBuilder/GraphQLArgumentsBuilder.cs:38 | `key:value` reads back to the same entry when the key has no `:`, whatever the value holds. |
| `ArgumentsBuilder.VariableParts` | GraphQL.Client/QueryBuilder/GraphQLArgumentsBuilder.cs:37 | Gives one declaration per variable, in declaration order. |
| `ArgumentsBuilder.EntryParts` | GraphQL.Client/QueryBuilder/GraphQLArgumentsBuilder.cs:38 | Gives one `key:value` per argument, in dictionary order. |
| `ArgumentsBuilder.Empty` | GraphQL.Client/QueryBuilder/GraphQLArgumentsBuilder.cs:32-33 | No variable is declared and no argument is set. How this shows in the output is stated by `ArgumentsBuilder.BuildEmptyIff` and `QueryBuilder.ArgumentClause`. |
| `ArgumentsBuilder.Build` | GraphQL.Client/QueryBuilder/GraphQLArgumentsBuilder.cs:35-41 | A lone variable builds to its declaration, and a lone argument to its `key:value`, with no separator. The general order is stated by `ArgumentsBuilder.VariablesBeforeParams`, `ArgumentsBuilder.AppendVariable` and `ArgumentsBuilder.AppendParam`. |
| `ArgumentsBuilder.BuildEmptyIff` | GraphQL.Client/QueryBuilder/GraphQLArgumentsBuilder.cs:32-41 | The list is empty if and only if the set has no variable and no argument. |
| `ArgumentsBuilder.VariablesBeforeParams` | GraphQL.Client/QueryBuilder/GraphQLArgumentsBuilder.cs:35-41 | When both kinds are present, all variables come first, then one `", "`, then all arguments. |
| `ArgumentsBuilder.AppendVariable` | GraphQL.Client/QueryBuilder/GraphQLArgumentsBuilder.cs:11-18 | One more variable puts its declaration straight after the earlier ones and before every argument. With no arguments this adds `", "` and the declaration at the end of the list. With arguments, the declaration stands between the two groups, `", "` on each side. |
| `ArgumentsBuilder.AppendParam` | GraphQL.Client/QueryBuilder/GraphQLArgumentsBuilder.cs:27-30 | A new argument on a non-empty set adds `", key:value"` at the end of the list. |
| `SelectBuilder.Empty` | GraphQL.Client/QueryBuilder/GraphQLSelectBuilder.cs:11 | The selection has no field. How this shows in the output is stated by `SelectBuilder.Build`, `SelectBuilder.FieldBuild` and `SelectBuilder.Lines`. |
| `SelectBuilder.AddField` | GraphQL.Client/QueryBuilder/GraphQLSelectBuilder.cs:13-20 | Exactly one field, with that name and an empty child, is added after the existing fields, which are unchanged. |
| `SelectBuilder.Build` | GraphQL.Client/QueryBuilder/GraphQLSelectBuilder.cs:22-32 | An empty selection builds to `""`. A one-field selection builds to exactly that field, with no separator. |
| `SelectBuilder.FieldBuilds` | GraphQL.Client/QueryBuilder/GraphQLSelectBuilder.cs:31 | Gives one rendering per field. |
| `SelectBuilder.FieldBuild` | GraphQL.Client/QueryBuilder/GraphQLFieldBuilder.cs:21-39 | A field with an empty child selection is its prefix and name, with no braces. |
| `SelectBuilder.Lines` | GraphQL.Client/QueryBuilder/GraphQLSelectBuilder.cs:22-32 | The reference lines are empty exactly when the selection is. |
| `SelectBuilder.BuildLines` | GraphQL.Client/QueryBuilder/GraphQLSelectBuilder.cs:22-32 | In both layouts a selection is the document of its lines. Every field is at level `n`, and the separator joins neighbours. |
| `SelectBuilder.FieldBuildLines` | GraphQL.Client/QueryBuilder/GraphQLFieldBuilder.cs:21-39 | A field with a child selection opens ` {` on its own line. Then come the child's lines one level deeper, then `}` at the field's level. |
| `SelectBuilder.StripBuild` | GraphQL.Client/QueryBuilder/GraphQLSelectBuilder.cs:22-32 | At any level and in either layout, a selection without spaces and line feeds is its skeleton. |
| `SelectBuilder.StripFieldBuild` | GraphQL.Client/QueryBuilder/GraphQLFieldBuilder.cs:21-39 | A field without layout is its stripped name, and braces around a non-empty child selection. |
| `SelectBuilder.CompactOneLine` | GraphQL.Client/QueryBuilder/GraphQLFieldBuilder.cs:21-38 | Compact, a selection whose field names hold no line feed, at any depth, is written with no line feed. |
| `SelectBuilder.LayoutOnly` | GraphQL.Client/QueryBuilder/GraphQLFieldBuilder.cs:23-31 | The indented and the compact selection differ only in spaces and line feeds. |
| `QueryBuilder.Bare` | GraphQL.Client/QueryBuilder/GraphQLQueryBuilder.cs:13-19 | A node made with no configuration has the given name and nesting, no arguments, no fields and no children. |
| `QueryBuilder.ArgumentClause` | GraphQL.Client/QueryBuilder/GraphQLQueryBuilder.cs:61 | The clause is empty if and only if the argument set is empty. Otherwise it is the set's list in parentheses. |
| `QueryBuilder.ChildBuild` | GraphQL.Client/QueryBuilder/GraphQLQueryBuilder.cs:50-67 | A rendered node is never empty. Its exact document is stated by `QueryBuilder.BuildLines`, and its layout-free form by `QueryBuilder.StripChildBuild`. |
| `QueryBuilder.Body` | GraphQL.Client/QueryBuilder/GraphQLQueryBuilder.cs:62-66 | A node with neither fields nor children has an empty inside. |
| `QueryBuilder.ChildBuilds` | GraphQL.Client/QueryBuilder/GraphQLQueryBuilder.cs:66 | Gives one rendering per child. |
| `QueryBuilder.WrittenChildBuild` | GraphQL.Client/QueryBuilder/GraphQLQueryBuilder.cs:50-67 | The code as written: the same block, never empty. Its layout-free form is the skeleton on every tree (`QueryBuilder.StripWrittenChildBuild`). Its full document is the intended one when no node has both fields and children (`QueryBuilder.WrittenAgrees`). |
| `QueryBuilder.StripWrittenChildBuild` | GraphQL.Client/QueryBuilder/GraphQLQueryBuilder.cs:50-66 | In either layout, the code's own document without spaces and line feeds is the node's skeleton, on every tree, including those where a field runs into a child. |
| `QueryBuilder.WrittenBody` | GraphQL.Client/QueryBuilder/GraphQLQueryBuilder.cs:66 | As written, a node without fields has its joined children as its inside, and a node without children has its fields. |
| `QueryBuilder.WrittenChildBuilds` | GraphQL.Client/QueryBuilder/GraphQLQueryBuilder.cs:66 | Gives one as-written rendering per child. |
| `QueryBuilder.WrittenAgrees` | GraphQL.Client/QueryBuilder/GraphQLQueryBuilder.cs:62-66 | On every tree in which no node has both fields and children, the code as written and the intended rendering give the same string. |
| `QueryBuilder.StripChildBuild` | GraphQL.Client/QueryBuilder/GraphQLQueryBuilder.cs:50-66 | In either layout a rendered node without layout is its skeleton: the stripped name and clause, then `{`, the fields' and children's skeletons, and `}`. |
| `QueryBuilder.NodeLines` | GraphQL.Client/QueryBuilder/GraphQLQueryBuilder.cs:66 | A node's reference lines are at least its opening line, its inside and its closing line. |
| `QueryBuilder.ChildrenLines` | GraphQL.Client/QueryBuilder/GraphQLQueryBuilder.cs:66 | The children's lines are empty exactly when there are no children. |
| `QueryBuilder.BuildLines` | GraphQL.Client/QueryBuilder/GraphQLQueryBuilder.cs:50-66 | In both layouts a node is the document of its lines. The head and ` {` open at the node's own nesting, the fields come one level deeper, each child comes at its stored nesting, and `}` closes at the node's nesting. |
| `QueryBuilder.LayoutOnly` | GraphQL.Client/QueryBuilder/GraphQLQueryBuilder.cs:52-66 | The indented and the compact document differ only in spaces and line feeds, both for the code as written and for the intended rendering. Without layout, the written and the intended compact documents are also equal. |
| `QueryBuilder.CompactOneLine` | GraphQL.Client/QueryBuilder/GraphQLQueryBuilder.cs:38-66 | `None` formatting gives one line: when no node name, argument clause or field name of the tree holds a line feed, neither the code as written nor the intended compact document holds one. |
| `QueryBuilder.CompactBareNode` | GraphQL.Client/QueryBuilder/GraphQLQueryBuilder.cs:65-66 | Compact, a node with no arguments, fields or children renders as `name {  }`, both as written and as intended. |
| `BuilderHeap.EmptyArena` | GraphQL.Client/QueryBuilder/GraphQLQueryBuilder.cs:13-19 | The arena with no object in it satisfies the invariant. |
| `BuilderHeap.Top` | GraphQL.Client/QueryBuilder/GraphQLQueryBuilder.cs:40-48 | `_root ?? this`: a root is its own top, and any other node's top is its root link. |
| `BuilderHeap.VariablesOf` | GraphQL.Client/QueryBuilder/GraphQLArgumentsBuilder.cs:9 | An argument set's variables are the shared variable objects its list names, in order. |
| `BuilderHeap.BuildOf` | GraphQL.Client/QueryBuilder/GraphQLQueryBuilder.cs:40-66 | Building through any node gives the code's own document of its root. Without layout this is always the root's skeleton. When no node of the tree has both fields and children, it is exactly the intended document of the root's lines. Compact, it holds no line feed when no name, argument clause or field name does. |
| `BuilderHeap.NewRoot` | GraphQL.Client/QueryBuilder/GraphQLQueryBuilder.cs:76-131 | `New` keeps the invariant and makes a bare root: no root link, nesting 0, and its own top. Every earlier node renders as before. |
| `BuilderHeap.QueryValid` | GraphQL.Client/QueryBuilder/GraphQLQueryBuilder.cs:140-148 | `Query` keeps the invariant and changes no existing node's top. |
| `BuilderHeap.QueryChild` | GraphQL.Client/QueryBuilder/GraphQLQueryBuilder.cs:145-146 | `Query` makes a bare child one level deeper that shares the parent's top. The parent node is unchanged except for this child, appended to its children. |
| `BuilderHeap.VarAppends` | GraphQL.Client/QueryBuilder/GraphQLArgumentsBuilder.cs:11-18 | `Var` appends a fresh `String` variable to this set only, with no duplicate check. The arguments are unchanged. |
| `BuilderHeap.ObjectShared` | GraphQL.Client/QueryBuilder/GraphQLVariableBuilder.cs:32-36 | Setting the type through a handle changes that variable in every argument set that holds it, and nothing else. |
| `BuilderHeap.RequiredShared` | GraphQL.Client/QueryBuilder/GraphQLVariableBuilder.cs:38-42 | `Required` through a handle is seen by every argument set that holds the variable, and changes nothing else. |
| `BuilderHeap.ParamSets` | GraphQL.Client/QueryBuilder/GraphQLArgumentsBuilder.cs:27-30 | `Param` sets one argument of this set and keeps the invariant, which includes distinct keys in every set. Afterwards the key has exactly one entry. The set's variables and every other set are unchanged. |
| `BuilderHeap.FieldAppends` | GraphQL.Client/QueryBuilder/GraphQLSelectBuilder.cs:13-20 | `Field` appends a field with an empty child. Every selection made after this one renders as before. |
| `BuilderHeap.NestingHolds` | GraphQL.Client/QueryBuilder/GraphQLQueryBuilder.cs:145 | In every valid arena, every child of every rendered node sits exactly one level below its parent, all the way down. |
| `BuilderHeap.ChildBuildsSame` | GraphQL.Client/QueryBuilder/GraphQLQueryBuilder.cs:40-48 | Building through a child gives the same document as building through its parent. |
| `BuilderHeap.Builders.constructor` | GraphQL.Client/QueryBuilder/GraphQLQueryBuilder.cs:13-19 | Starts with no builder object. |
| `BuilderHeap.Builders.New` | GraphQL.Client/QueryBuilder/GraphQLQueryBuilder.cs:21-33 | The new state is `NewOp` of the old one. The new node is a bare root, and the handles returned for the callbacks are its own argument set and selection. |
| `BuilderHeap.Builders.Query` | GraphQL.Client/QueryBuilder/GraphQLQueryBuilder.cs:140-170 | The new state is `QueryOp` of the old one. The returned child is bare and one level deeper, and is appended to the parent's children. In both layouts it builds the parent's document. |
| `BuilderHeap.Builders.Var` | GraphQL.Client/QueryBuilder/GraphQLArgumentsBuilder.cs:11-18 | The set's variables gain the returned fresh variable at the end. |
| `BuilderHeap.Builders.Object` | GraphQL.Client/QueryBuilder/GraphQLVariableBuilder.cs:32-36 | Sets the type in place and returns the same handle. |
| `BuilderHeap.Builders.String` | GraphQL.Client/QueryBuilder/GraphQLVariableBuilder.cs:17-18 | Sets the type to `String` and returns the same handle. |
| `BuilderHeap.Builders.Int` | GraphQL.Client/QueryBuilder/GraphQLVariableBuilder.cs:20-21 | Sets the type to `Int` and returns the same handle. |
| `BuilderHeap.Builders.Float` | GraphQL.Client/QueryBuilder/GraphQLVariableBuilder.cs:23-24 | Sets the type to `Float` and returns the same handle. |
| `BuilderHeap.Builders.Boolean` | GraphQL.Client/QueryBuilder/GraphQLVariableBuilder.cs:26-27 | Sets the type to `Boolean` and returns the same handle. |
| `BuilderHeap.Builders.ID` | GraphQL.Client/QueryBuilder/GraphQLVariableBuilder.cs:29-30 | Sets the type to `ID` and returns the same handle. |
| `BuilderHeap.Builders.Required` | GraphQL.Client/QueryBuilder/GraphQLVariableBuilder.cs:38-42 | Marks the variable required in place and returns the same handle. |
| `BuilderHeap.Builders.Param` | GraphQL.Client/QueryBuilder/GraphQLArgumentsBuilder.cs:27-30 | The set's arguments become `SetParam` of the old ones. Its variables are unchanged. Its keys stay distinct, and the key set has exactly one entry. |
| `BuilderHeap.Builders.SetItem` | GraphQL.Client/QueryBuilder/GraphQLArgumentsBuilder.cs:20-25 | The indexer's setter has exactly `Param`'s effect. The keys stay distinct, and the key set has exactly one entry. |
| `BuilderHeap.Builders.Field` | GraphQL.Client/QueryBuilder/GraphQLSelectBuilder.cs:13-20 | The selection becomes `AddField` of the old one, and the returned handle is the new field. |
| `BuilderHeap.Builders.Select` | GraphQL.Client/QueryBuilder/GraphQLFieldBuilder.cs:18-19 | Hands out the field's own child selection, the same one on every call. |
| `BuilderHeap.Builders.Build` | GraphQL.Client/QueryBuilder/GraphQLQueryBuilder.cs:40-66 | Reads the arena without changing it. It gives the code's own document of the node's root: always the root's skeleton once layout is removed, and its line document when no node has both fields and children. `Build(None)` is one line: compact, the document holds no line feed when no name, argument clause or field name does. |
| `Scenarios.OrganizationVariablesBuild` | GraphQL.Client.Tests/QueryBuilderTests.cs:31-36 | The root's clause is `$Org:String!, $Items:Int!, $Cursor:String`. |
| `Scenarios.OrganizationParamsBuild` | GraphQL.Client.Tests/QueryBuilderTests.cs:36-39 | The arguments render in insertion order: `first:$Items, after:$Cursor`. |
| `Scenarios.PageInfoCompact` | GraphQL.Client.Tests/QueryBuilderTests.cs:76-80 | Compact, `pageInfo` with its two leaves is `pageInfo { endCursor hasNextPage }`. |
| `Scenarios.OrganizationNodeLines` | GraphQL.Client.Tests/QueryBuilderTests.cs:15-29 | The organization tree has exactly the fourteen lines of the expected document, each at its level. |
| `Scenarios.OrganizationBuild` | GraphQL.Client.Tests/QueryBuilderTests.cs:15-54 | In both layouts the organization tree is the document of those lines. |
| `Scenarios.OrganizationIndented` | GraphQL.Client.Tests/QueryBuilderTests.cs:12-57 | Indented, the organization tree is its lines at four spaces per level, joined by line feeds, as written and as intended. |
| `Scenarios.OrganizationCompact` | GraphQL.Client.Tests/QueryBuilderTests.cs:59-90 | Compact, the organization tree is the texts of its lines, joined by single spaces, as written and as intended. |
| `Scenarios.OrganizationWritten` | GraphQL.Client/QueryBuilder/GraphQLQueryBuilder.cs:66 | No node of the organization tree has both fields and children, so the code as written renders it exactly as intended, in both layouts. |
| `Scenarios.FooChildCompact` | GraphQL.Client/QueryBuilder/GraphQLQueryBuilder.cs:61-66 | Compact, a child with one argument and one field is `foo(id:$X) { bar }`, as written and as intended. |
| `Scenarios.FooCompact` | GraphQL.Client/QueryBuilder/GraphQLQueryBuilder.cs:61-66 | Compact, its root is `query($X:Int!) { foo(id:$X) { bar } }`, as written and as intended. |
| `Scenarios.PingCompact` | GraphQL.Client/QueryBuilder/GraphQLQueryBuilder.cs:88-91 | Compact, an unnamed root whose only child is a bare `ping` is ` { ping {  } }`, as written and as intended. |
| `Scenarios.MixedArguments` | GraphQL.Client/QueryBuilder/GraphQLArgumentsBuilder.cs:35-41 | Variables come before arguments in one list: `$A:String, $B:Int!, limit:10`. |
| `Scenarios.UserWritten` | GraphQL.Client/QueryBuilder/GraphQLQueryBuilder.cs:66 | As written, `user` with field `name` and child `pullRequests` is `user { namepullRequests {  } }`. |
| `Scenarios.UserIntended` | GraphQL.Client.Tests/QueryBuilderTests.cs:123 | As intended, the same node is `user { name pullRequests {  } }`. |
| `Scenarios.UserFieldsAbutChildren` | GraphQL.Client/QueryBuilder/GraphQLQueryBuilder.cs:66 | On that node the two renderings differ, and the node has both fields and children. |
| `Replay.OrganizationArenaNode` | GraphQL.Client.Tests/QueryBuilderTests.cs:31-54 | The arena those calls leave is valid. Its root renders as the organization tree, and the child's top is the root. |
| `Replay.DeclareVariables` | GraphQL.Client.Tests/QueryBuilderTests.cs:31-36 | The root's callback leaves `Org` and `Items` required and `Cursor` optional, in that order. |
| `Replay.PassParams` | GraphQL.Client.Tests/QueryBuilderTests.cs:36-39 | The organization's callback sets `first` and then `after`. |
| `Replay.SelectOrganization` | GraphQL.Client.Tests/QueryBuilderTests.cs:40-53 | The select callback, with its two nested `Select` callbacks, leaves the expected fields. |
| `Replay.BuildBoth` | GraphQL.Client.Tests/QueryBuilderTests.cs:54 | Building through the child gives both expected documents. |
| `Replay.CreateQuery` | GraphQL.Client.Tests/QueryBuilderTests.cs:31-54 | The whole call sequence, built through the child `Query` returns, gives the indented document of `CreateQueryTest` and the compact one of `CreateQueryWithoutFormatTest`. |

## Left out

- `GraphQLClient.cs`, `GraphQLQueryResult.cs`, `GraphQLQueryError.cs` and `GraphQLRequestException.cs` are not part of this model. They hold HTTP, JSON and data types with no builder logic.
- The `Action<…>` callbacks are not modelled as values. A callback becomes the calls it makes, issued on the handles that `New`, `Query` and `Select` return. A missing callback makes no call.
- The six `New` overloads and the three `Query` overloads are one method each. An unnamed overload passes `""`.
- The other optional arguments are passed explicitly: an omitted default of `Var(name, defaultValue)` or type of `Object(ofType)` is `""`, and an omitted formatting of `Build(formatting)` is `Compact`. No behaviour is lost.
- Null strings are not modelled. Every string in the model exists, and `string.IsNullOrWhiteSpace` is the empty-or-white-space test on it.
- `Environment.NewLine` is fixed to a line feed. `char.IsWhiteSpace` is the fixed .NET list of white-space characters.
- `Dictionary` enumeration order is taken to be insertion order, with an overwritten key keeping its place. This is an assumption about .NET, not a guarantee.
- `_nesting * 4` and the other integers are unbounded, so 32-bit overflow is not modelled.
- The unused local `children` at `GraphQLQueryBuilder.cs:63` has no effect and is not modelled.
- `TestETMDB` calls a live endpoint and is not modelled. The call sequence of `TestGithubGraphQlQuery` is not replayed. Only the node shape where its expected string parts from the code (`user` with a field and a child) is stated, in `Scenarios`.
- `Replay.CreateQuery`: the expected documents are stated as the test's fourteen lines with their levels. Indented, they are joined by line feeds after four spaces per level; compact, by single spaces. They are not stated as one string literal.
- `VariableBuilder.Build`: its own contract says only that a declaration starts with `$`. The full content is stated by the round trip `VariableBuilder.ParseBuild`, which needs a name without `:` and a type without `!` or space.
- `QueryBuilder.WrittenChildBuild`: its own contract says only that the document is never empty. Its layout-free form is stated on every tree, by `QueryBuilder.StripWrittenChildBuild`. Its exact document is stated only for trees in which no node has both fields and children, by `QueryBuilder.WrittenAgrees`.
- `BuilderHeap.BuildOf`: the exact document as lines is promised only when no node of the tree has both fields and children. On other trees the promise is the skeleton, together with the flat definition `QueryBuilder.WrittenChildBuild`. The same holds for `BuilderHeap.Builders.Build`.
- `ArgumentsBuilder.Empty`: a predicate with no contract of its own. Its meaning for the output is stated by `ArgumentsBuilder.BuildEmptyIff` and `QueryBuilder.ArgumentClause`.
- `SelectBuilder.Empty`: a predicate with no contract of its own. Its meaning for the output is stated by `SelectBuilder.Build`, `SelectBuilder.FieldBuild` and `SelectBuilder.Lines`.
- `QueryBuilder.ChildBuild`: its own contract says only that the document is never empty. The exact document is stated by `QueryBuilder.BuildLines` and `QueryBuilder.StripChildBuild`.
- `BuilderHeap.Builders.Build` and the other read-only members are functions, so "Build does not change the tree" is true by construction rather than stated.

## Findings

| source | as written | input that shows it | evidently intended | confidence | as-written member | corrected member |
|---|---|---|---|---|---|---|
| GraphQL.Client/QueryBuilder/GraphQLQueryBuilder.cs:66 | A node's fields and its joined children are concatenated with nothing between them. | Compact node `user` with field `name` and child `pullRequests` gives `user { namepullRequests {  } }` (`Scenarios.UserWritten`, `Scenarios.UserFieldsAbutChildren`). | One separator between the last field and the first child, `user { name pullRequests {  } }`, as `QueryBuilderTests.cs:123` expects. | not executed | `QueryBuilder.WrittenChildBuild` | `QueryBuilder.ChildBuild` |

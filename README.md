# script-box core, modelled in Dafny

script-box is a Next.js site where users run code snippets in Docker containers, save and fork
code templates, and write blog posts and comments that others can vote on, report and list.
This project models the server-side core of the site:

- **Code execution** (`Placeholders`, `LanguageConfigs`, `DockerExecution`, `ExecuteApi`):
  - the language registry, with image, file name, compile and run commands, and the entrypoint flag;
  - `{{placeholder}}` substitution;
  - the executor, which creates a per-session directory, writes the source (and for C# a project
    descriptor, and the input file when there is input), builds the `docker run` argument
    vector, runs the container, turns a failure into an error carrying stdout and stderr, and
    always removes the directory;
  - the `POST /api/code/execute` handler.
- **Shared helpers** (`Text`, `Pagination`, `Validators`):
  - the `page`/`limit` window and the page count;
  - the e-mail and password validators.
- **Blog and template handlers** (`Store`, `RateController`, `PostsController`, `CommentsController`,
  `ReportController`, `TemplatesApi`):
  - the database tables become the fields of one `Database` object, which the handlers update;
  - each Prisma `where` clause the handlers build is a value;
  - a predicate (`WhereHolds`) says which rows the clause selects;
  - each builder is proved to select exactly the rows the handler means to show.

JavaScript semantics are written out where they matter:

- `if (x)` on a string is "present and non-empty" (`Store.Present`), and a user id of 0 is falsy.
- Every array is truthy, so an empty `tags` list still replaces a template's tags on a fork.
- A field that is `undefined` in a Prisma `update` leaves the column unchanged (`Store.Given`).
- An exception nothing catches becomes status 500 with an empty body.

The database, the file system, the container and the session UUID are inputs. A `World`
value supplies what the file system and the process do. Database failures are parameters of
the handlers (`accepted`, `dbError`, `createError`). The executor records its side effects as
a list of `Effect`s, and its contracts are stated on that list.

## Model

| member | source | states |
|---|---|---|
| Text.Trim | src/utils/code_exec/dockerExecution.ts:132 | the result is an infix of the input, only whitespace is dropped, and neither end is whitespace |
| Text.TrimIdempotent | src/utils/code_exec/dockerExecution.ts:132 | trimming twice gives the same text as trimming once |
| Text.Split | src/controllers/postsController.js:84 | `split(",")` yields at least one piece, no piece contains the separator, and joining the pieces back with it gives the input |
| Text.NatToString | src/utils/code_exec/dockerExecution.ts:123 | the exit code in `Exited with code N` is written in decimal digits that read back as the same number |
| Placeholders.TokenAt | src/utils/code_exec/dockerExecution.ts:151-156 | a recognised token is `{{`, a non-empty run of word characters, `}}` |
| Placeholders.ReplacePlaceholders | src/utils/code_exec/dockerExecution.ts:151-156 | a command without `{` comes back unchanged, and every character of the result comes from the command or from one of the replacement values |
| Placeholders.NoPlaceholderUnchanged | src/utils/code_exec/dockerExecution.ts:151-156 | text without a `{{word}}` token comes back unchanged |
| Placeholders.PlainPrefix | src/utils/code_exec/dockerExecution.ts:151-156 | a prefix that opens no token is copied as is and the rest is expanded on its own |
| Placeholders.ExpandToken | src/utils/code_exec/dockerExecution.ts:155 | a token expands to its key's value, or to nothing when the key is missing or its value is empty |
| Placeholders.TokenAtWord | src/utils/code_exec/dockerExecution.ts:155 | text starting with `{{w}}` for a word `w` has the token `w` at its head, since `\w+` stops at the closing braces |
| Placeholders.NoPlaceholderBraceFree | src/utils/code_exec/dockerExecution.ts:151-156 | text without `{` contains no placeholder |
| LanguageConfigs.Lookup | src/utils/code_exec/languageConfigs.ts:3-72 | a language has a configuration exactly when it is one of the twelve registry keys (the table's own keys; inherited object keys are not modelled) |
| LanguageConfigs.RegistryKeys | src/utils/code_exec/languageConfigs.ts:3-72 | the registry holds exactly python, javascript, c, cpp, java, go, php, rust, r, elixir, solidity and csharp |
| LanguageConfigs.ImageIsKeyRunner | src/utils/code_exec/languageConfigs.ts:4-71 | every language runs in the image `<language>-runner` |
| LanguageConfigs.RunCommandAlwaysPresent | src/utils/code_exec/languageConfigs.ts:4-71 | every language has a run command |
| LanguageConfigs.CompiledLanguages | src/utils/code_exec/languageConfigs.ts:14-65 | exactly c, cpp, java, rust and solidity have a compile step |
| LanguageConfigs.EntrypointFlags | src/utils/code_exec/languageConfigs.ts:58-71 | the entrypoint flag is false exactly for solidity and true exactly for csharp |
| LanguageConfigs.FileNamesDistinct | src/utils/code_exec/languageConfigs.ts:6-68 | two different languages never write the same source file name |
| LanguageConfigs.ExpandCodeFilePath | src/utils/code_exec/dockerExecution.ts:56-64 | in a template with one `{{codeFilePath}}` and no other brace, expansion puts the file name in its place and leaves no placeholder |
| LanguageConfigs.ExpandPlain | src/utils/code_exec/dockerExecution.ts:56-64 | a template without braces expands to itself |
| LanguageConfigs.RegistryTemplatesResolve | src/utils/code_exec/languageConfigs.ts:3-72 | every language has a non-empty, brace-free file name, and each of its run and compile templates either has no brace and expands to itself, or is `pre{{codeFilePath}}post` with brace-free `pre` and `post` and expands to `pre + fileName + post`; `{{codeFilePath}}` is the only placeholder, so expansion never puts in "" and leaves no placeholder |
| LanguageConfigs.SlotTemplate | src/utils/code_exec/dockerExecution.ts:56-64 | a template `pre{{codeFilePath}}post` with brace-free `pre` and `post` has the placeholder as its only token and expands to the file name in its place |
| LanguageConfigs.OtherPlaceholderRejected | src/utils/code_exec/dockerExecution.ts:151-156 | a template whose only token is another name, `{{foo}}`, expands to "" and is not one that uses only `{{codeFilePath}}` |
| DockerExecution.WriteFiles | src/utils/code_exec/dockerExecution.ts:26-48 | the writes performed are the files' writes in order, at most one per file, and every file is written when no error is reported |
| DockerExecution.Commands | src/utils/code_exec/dockerExecution.ts:53-70 | there are one or two commands: the expanded compile command when there is one, then the run line |
| DockerExecution.Host.Write | src/utils/code_exec/dockerExecution.ts:27-28 | one write is recorded at `dir/name`, and it fails exactly when the file system refuses that name |
| DockerExecution.Host.WriteWorkspace | src/utils/code_exec/dockerExecution.ts:26-48 | the writes performed and the error reported are those of `WriteFiles` over the workspace files |
| DockerExecution.Host.Start | src/utils/code_exec/dockerExecution.ts:50-130 | logs the argument vector, spawns it, and reports the process's streams and its error (spawn error or non-zero exit) |
| DockerExecution.Host.TryRun | src/utils/code_exec/dockerExecution.ts:26-140 | the outcome and effects of the `try`/`catch` are those of the specification function `Attempt` |
| DockerExecution.Host.InSession | src/utils/code_exec/dockerExecution.ts:19-148 | the directory is created, used and removed, and the set of directories afterwards depends only on the mkdir and rm errors |
| DockerExecution.Host.ExecuteInDocker | src/utils/code_exec/dockerExecution.ts:8-149 | outcome and effects are those of `Execution`; an unknown language or a failed mkdir leaves the directories untouched |
| DockerExecution.FirstFailingWrite | src/utils/code_exec/dockerExecution.ts:26-48 | an error is reported exactly when some file's write fails, and it is the first failing file's error, after that write was attempted |
| DockerExecution.WorkspaceLayout | src/utils/code_exec/dockerExecution.ts:27-48 | the source comes first, file names are distinct, the project descriptor is written exactly for csharp and the input file exactly when there is input |
| DockerExecution.ReservedNamesUnused | src/utils/code_exec/dockerExecution.ts:40-46 | no registry source file is named `Program.csproj` or `input.txt` |
| DockerExecution.WritesSucceedIff | src/utils/code_exec/dockerExecution.ts:26-48 | the workspace writes succeed exactly when none of the files written for that language and input is refused |
| DockerExecution.UnsupportedLanguageCreatesNothing | src/utils/code_exec/dockerExecution.ts:13-17 | an unknown language throws `Unsupported language: <name>` and performs no effect at all |
| DockerExecution.Execution | src/utils/code_exec/dockerExecution.ts:8-149 | an unknown language throws the unsupported-language error with no effect; a known one first creates the session directory; a resolved execution yields the trimmed stdout |
| DockerExecution.Session | src/utils/code_exec/dockerExecution.ts:19-148 | the directory is created first and only once; a failed mkdir throws its error and does nothing else; otherwise the outcome is the `try` block's, and the `finally` removal (and its error log) ends the effects |
| DockerExecution.Attempt | src/utils/code_exec/dockerExecution.ts:26-140 | the `try` block resolves exactly when every write succeeds, the run command exists and the process ends without error, then with the trimmed stdout; it never creates or removes a directory |
| DockerExecution.SucceedsIff | src/utils/code_exec/dockerExecution.ts:119-132 | execution resolves exactly when the language is known, mkdir and every write succeed and the container exits 0, and then it resolves to the trimmed stdout |
| DockerExecution.FailureCarriesStreams | src/utils/code_exec/dockerExecution.ts:119-140 | when the container fails, the thrown error is the failure message built from the reason, stdout and stderr |
| DockerExecution.FailureMessageMentions | src/utils/code_exec/dockerExecution.ts:138-140 | the rethrown message contains the reason, stderr and stdout |
| DockerExecution.TempDirRemovedLast | src/utils/code_exec/dockerExecution.ts:141-148 | once the directory is made (the first effect), its removal is the last effect on every path, followed only by the logged error when the removal fails |
| DockerExecution.OutcomeIgnoresRemoval | src/utils/code_exec/dockerExecution.ts:141-148 | the outcome is the same whether or not removing the directory fails |
| DockerExecution.DockerArgv | src/utils/code_exec/dockerExecution.ts:72-105 | the argument vector starts with the fixed `docker run` prefix of limits, mount and working directory; with `useEntrypoint === false` the image and then each command follow, otherwise `--entrypoint /bin/sh <image> -c` and the commands joined by ` && ` |
| DockerExecution.ContainerInvocation | src/utils/code_exec/dockerExecution.ts:50-105 | every container gets the same limits and mount; solidity's commands go to the image entrypoint, every other language gets one `/bin/sh -c` line joined by ` && ` |
| DockerExecution.RunLinePipedIff | src/utils/code_exec/dockerExecution.ts:62-68 | the run line starts with the `cat /workspace/input.txt | ` pipe exactly when there is input |
| ExecuteApi.Handler | src/pages/api/code/execute.ts:9-29 | the status is 200, 400 or 405, and it is 200 exactly when execution resolved |
| ExecuteApi.OnlyPostExecutes | src/pages/api/code/execute.ts:13-15 | any method other than POST gets 405 and nothing runs |
| ExecuteApi.FieldsRequiredBeforeExecution | src/pages/api/code/execute.ts:19-21 | a missing or empty language or code gets 400 before any execution |
| ExecuteApi.StdinDefaultsToEmpty | src/pages/api/code/execute.ts:17 | an absent stdin runs the code exactly as an empty one does |
| ExecuteApi.OutcomeBecomesStatus | src/pages/api/code/execute.ts:23-28 | resolved output becomes 200 with that output; a thrown error becomes 400 with its message |
| ExecuteApi.OkIff | src/pages/api/code/execute.ts:13-28 | 200 exactly for a POST with language and code whose execution resolves |
| ExecuteApi.UnknownLanguageIs400 | src/pages/api/code/execute.ts:23-28 | an unknown language is answered 400 with the unsupported-language message |
| Pagination.Paginate | src/utils/pagination.js:1-16 | page and size are at least 1 and keep a given value of at least 1, take is the page size, and skip is never negative |
| Pagination.DefaultWindow | src/utils/pagination.js:1-6 | no page and no limit give page 1 of 10 |
| Pagination.ClampedBelow | src/utils/pagination.js:2 | a page below 1 is read as page 1 |
| Pagination.LimitClampedBelow | src/utils/pagination.js:3 | a limit below 1 is read as 1 |
| Pagination.WindowIsPageBlock | src/utils/pagination.js:5-6 | skip is a multiple of take, and row `i` falls in the window exactly when `i / pageSize + 1` is the current page |
| Pagination.PagesTile | src/utils/pagination.js:5-6 | page `p + 1` starts exactly where page `p` ends |
| Pagination.TotalPages | src/controllers/postsController.js:143 | `ceil(total / size)`: enough pages for every item and no spare page |
| Pagination.TotalPagesLeast | src/controllers/postsController.js:140-143 | no smaller page count covers all items |
| Pagination.ItemsOnCountedPages | src/controllers/commentsController.js:104-107 | every item index falls on a page numbered from 1 to the page count |
| Validators.EmailValidator | src/utils/validation/validators.ts:1-2 | the answer is either no error or the `Invalid email` message |
| Validators.EmailValidatorMatchesPattern | src/utils/validation/validators.ts:1-2 | the validator accepts exactly the texts `^\S+@\S+$` matches: two non-empty runs without whitespace around an `@` |
| Validators.SpaceRejected | src/utils/validation/validators.ts:2 | an address containing any whitespace is rejected |
| Validators.UserAtHostAccepted | src/utils/validation/validators.ts:2 | `user@host` is accepted for any non-empty user and host without whitespace, even a host holding another `@` |
| Validators.NoInnerAtRejected | src/utils/validation/validators.ts:2 | a text with no `@` strictly between its first and last character is rejected |
| Validators.PasswordValidator | src/utils/validation/validators.ts:4-5 | no error exactly when the password has at least six characters, else the fixed message |
| Validators.PasswordMonotone | src/utils/validation/validators.ts:5 | a password that is accepted stays accepted with characters appended |
| Store.RequestedOrder | src/controllers/postsController.js:105-120 | an empty sortBy leaves the order alone; "reports" is refused unless the role is ADMIN and otherwise sorts by report count; any other value sorts by rating in that direction |
| Store.ListingOf | src/controllers/postsController.js:122-152 | the listing carries the matching set and its size, the page and size that the clamping of `page` and `limit` gives (at least 1 each), and the least page count covering all items |
| RateController.Stored | src/controllers/rateController.js:25-58 | the stored value is the vote, or 0 exactly when the vote repeats a stored up or down vote |
| RateController.Toggle | src/controllers/rateController.js:23-37 | the branches pick `Stored` and move the counter by the new stored value minus the old |
| RateController.RatePost | src/controllers/rateController.js:4-93 | a missing post gives 404 and changes nothing; otherwise 200, the caller's vote row is set to `Stored`, and the rating moves by the difference |
| RateController.RateComment | src/controllers/rateController.js:97-193 | the same on comments, with the comment's 404 |
| RateController.VoteKeepsBalance | src/controllers/rateController.js:25-84 | for any vote and any prior rows, rating minus the sum of stored votes is unchanged |
| RateController.RatePostKeepsBalance | src/controllers/rateController.js:4-93 | the balance of a post after `RatePost`'s update equals its balance before |
| RateController.StoredStaysTernary | src/controllers/rateController.js:25-58 | with up and down votes only, every stored value stays in {-1, 0, 1} |
| RateController.DoubleVoteRestores | src/controllers/rateController.js:25-84 | the same vote cast twice from no vote (or a withdrawn one) returns the counter to where it started |
| PostsController.PostAccess | src/controllers/postsController.js:25-33 | 404 exactly when the post is missing, 403 exactly when the caller did not write it, else no refusal |
| PostsController.Edited | src/controllers/postsController.js:35-43 | only title, description, content and tags change, each only when given |
| PostsController.EditIdempotent | src/controllers/postsController.js:35-43 | applying the same edit twice is the same as once |
| PostsController.EmptyEditKeepsPost | src/controllers/postsController.js:35-43 | an edit with no field given leaves the post unchanged |
| PostsController.UpdatePost | src/controllers/postsController.js:13-46 | the refusal of `PostAccess` with no change, or 200 and exactly that post edited |
| PostsController.DeletePost | src/controllers/postsController.js:48-72 | the refusal of `PostAccess` with no change, or 204 and exactly that post removed |
| PostsController.NewPost | src/controllers/postsController.js:168-179 | the new post carries the request's title, description and content, its tags (empty when absent) and its rating (0 when absent), the caller as author, and is visible, unreported and editable |
| PostsController.CreatePost | src/controllers/postsController.js:160-188 | 400 when a required field is empty or the caller has no id; 500 with nothing stored when the insert fails; else 201 with the new id and that post added |
| PostsController.PostFilter | src/controllers/postsController.js:79-103 | the corrected `where` clause selects exactly the posts that match the filters, the search term and are visible to the caller |
| PostsController.PostFilterAsWritten | src/controllers/postsController.js:79-103 | the clause as written has a single `OR` list, which holds both visibility conditions and, when a search term is given, the term's two conditions; the owner filter is set exactly for `ownedByUser=true` with a user id |
| PostsController.AsWrittenSelects | src/controllers/postsController.js:88-103 | the clause as written selects a post that matches the filters when it matches the search term or is visible to the caller |
| PostsController.AsWrittenWithoutContent | src/controllers/postsController.js:99-103 | without a search term the clause as written agrees with the corrected one |
| PostsController.AsWrittenShowsHiddenPost | src/controllers/postsController.js:88-103 | a search matching another author's hidden post returns it under the clause as written, but not under the corrected one |
| PostsController.SelectedHidesOthersHiddenPosts | src/controllers/postsController.js:99-103 | a listing never contains another author's hidden post |
| PostsController.OwnerFilterNeedsTrue | src/controllers/postsController.js:95-97 | the author filter applies only for `ownedByUser=true` and a caller with an id |
| PostsController.GetPosts | src/controllers/postsController.js:74-158 | 403 for a non-admin sort by reports, 500 for a direction the database refuses, else the listing of exactly the selected posts; this is the corrected handler of the first row under Findings, and it selects with `PostFilter`, not with the clause as written |
| CommentsController.EditAccess | src/controllers/commentsController.js:20-28 | 404 exactly when the comment is missing, 403 exactly when the caller did not write it or it is frozen |
| CommentsController.DeleteAccess | src/controllers/commentsController.js:47-55 | 404 exactly when the comment is missing, 403 exactly when the caller did not write it |
| CommentsController.FrozenCommentEditRefused | src/controllers/commentsController.js:24-55 | a frozen comment cannot be edited by anyone, but its author can still delete it |
| CommentsController.UpdateComment | src/controllers/commentsController.js:5-36 | the refusal of `EditAccess` with no change, or 200 and only that comment's content replaced when given |
| CommentsController.DeleteComment | src/controllers/commentsController.js:38-62 | the refusal of `DeleteAccess` with no change, or 204 and exactly that comment removed |
| CommentsController.CommentOrderAsWritten | src/controllers/commentsController.js:73-88 | as written, the `sortBy` branch refuses exactly where the intended gate refuses, keeps the intended order for an absent sortBy or "reports", and reaches the undefined `orderBy` exactly where a sort by rating is meant |
| CommentsController.AsWrittenRatingSortThrows | src/controllers/commentsController.js:73-88 | as written, every non-empty sortBy other than "reports" assigns through an undefined `orderBy`, although a sort by rating is meant |
| CommentsController.AsWrittenAgreesOtherwise | src/controllers/commentsController.js:73-88 | for an empty sortBy or "reports" the handler as written agrees with `RequestedOrder` |
| CommentsController.GetComments | src/controllers/commentsController.js:64-117 | 403 for a non-admin sort by reports, 500 for a refused direction, else the listing of exactly the post's comments the caller may see; this is the corrected handler of the second row under Findings, which sorts by rating where the code as written throws |
| CommentsController.ListedCommentsVisible | src/controllers/commentsController.js:67-94 | a listed comment belongs to the post and is either shown or the caller's own |
| CommentsController.NewComment | src/controllers/commentsController.js:131-137 | the new comment is the caller's, on that post, visible, unreported, editable and unrated |
| CommentsController.CreatePostComment | src/controllers/commentsController.js:119-140 | 404 with nothing stored when the post is missing, else 201 with a fresh id and that comment added |
| ReportController.NewReport | src/controllers/reportController.js:8-27 | the report names the caller, the reason and exactly one target of the given kind |
| ReportController.ReportItem | src/controllers/reportController.js:4-31 | 400 with nothing stored for an unknown item type, else 201 with a fresh id and that report added |
| ReportController.LinkOf | src/controllers/reportController.js:87-101 | the post link is the reported post, else the reported comment's post, else none |
| ReportController.Format | src/controllers/reportController.js:86-123 | each formatted report keeps id, reason and reporter, and shows the comment and the post content exactly when they were loaded |
| ReportController.FormatAll | src/controllers/reportController.js:86-123 | the formatted list has one entry per report, each being that report formatted |
| ReportController.FormatAllAppend | src/controllers/reportController.js:86-123 | formatting a concatenation is the concatenation of the formatted parts |
| ReportController.FormatKeepsIds | src/controllers/reportController.js:86-123 | the ids of the formatted list are the ids of the reports, in order |
| ReportController.GetReports | src/controllers/reportController.js:33-129 | 500 when the caller has no user row, 200 with the formatted reports for a stored ADMIN role, else 403 |
| ReportController.StoredRoleDecides | src/controllers/reportController.js:36-47 | the role in the database decides access, whatever role the caller's token claims |
| ReportController.Handling | src/controllers/reportController.js:131-165 | 403 unless the caller is ADMIN, 404 for a missing report, hide the comment or the post when the type matches a set target, else 400 |
| ReportController.MismatchRefused | src/controllers/reportController.js:157-161 | an item type that does not match the report's target is refused with 400 |
| ReportController.FrozenCommentWithdrawn | src/controllers/reportController.js:145-150 | a frozen comment is hidden from everyone but its author, and nobody, its author included, can edit it |
| ReportController.FrozenPostWithdrawn | src/controllers/reportController.js:151-156 | a hidden post is no longer listed to other users |
| ReportController.HandleReport | src/controllers/reportController.js:131-165 | carries out `Handling`: a refusal changes nothing; otherwise only the target row changes, to its frozen copy (hidden, reported, not editable), and a target that no longer exists is a 500 |
| TemplatesApi.ForkOf | src/pages/api/templates/fork.js:27-37 | a fork keeps the language, belongs to the caller and points at the original; its title, description and code are the request's when given and non-empty, otherwise the original's (the title with " (Forked)" appended); its tags are the request's whenever given, even empty, otherwise the original's |
| TemplatesApi.BareForkCopies | src/pages/api/templates/fork.js:29-36 | a fork that supplies nothing copies the original, retitled with ` (Forked)` |
| TemplatesApi.EmptyValuesInFork | src/pages/api/templates/fork.js:29-34 | empty strings fall back to the original's text, but an empty tag list replaces its tags |
| TemplatesApi.Fork | src/pages/api/templates/fork.js:4-45 | 201 exactly for a POST by a logged-in user of an existing template whose insert succeeds, and then only the fork is added; otherwise no change |
| TemplatesApi.ForkRefusals | src/pages/api/templates/fork.js:5-25 | the method is checked first, then the login, then that the original exists |
| TemplatesApi.TemplateFilter | src/pages/api/templates/index.js:24-42 | the `where` clause selects exactly the templates matching title, tags, search term and owner |
| TemplatesApi.ListTemplates | src/pages/api/templates/index.js:9-64 | the listing of exactly the selected templates |
| TemplatesApi.ListingSameForAll | src/pages/api/templates/index.js:40-42 | without the owner filter every caller gets the same set of templates |
| TemplatesApi.OwnedListingIsOwn | src/pages/api/templates/index.js:40-42 | with the owner filter every listed template is the caller's |
| TemplatesApi.CreateTemplate | src/pages/api/templates/index.js:68-86 | 400 with the database's error and no change, or 201 with a new row holding the request's title, description, code, language and tags, owned by the caller and not a fork, and the others unchanged |
| TemplatesApi.ForkIsCreateWithOrigin | src/pages/api/templates/fork.js:27-37 | a successful fork gives the same reply and table as creating a template from the fork's fields, except that the new row points back at the original |
| TemplatesApi.CreatedTemplateFound | src/pages/api/templates/index.js:9-86 | after a successful create, the owner's own listing searched by the new title selects the new template |
| TemplatesApi.TemplatesIndex | src/pages/api/templates/index.js:5-90 | GET lists without changing the table, POST creates, and any other method gets 405 |

## Left out

- LanguageConfigs.Lookup: keys inherited from `Object.prototype` (`constructor`, `toString`, `__proto__` and the like) are not modelled. For them `languageConfigs[language]` is truthy in JavaScript, but the model answers `None`.
- DockerExecution.UnsupportedLanguageCreatesNothing: for an inherited key the source does not throw `Unsupported language`. It creates the directory, `path.join(tempDir, undefined)` throws inside `try`, and the directory is removed. This is not modelled.
- DockerExecution.Execution: the same inherited-key path is not modelled.
- Placeholders.Substitute: a token naming an inherited key, such as `{{constructor}}`, is replaced by the text of a function in JavaScript, not by "". This is not modelled.
- `getPost` (postsController.js:5-11) is a single lookup with no decision to model.
- Rows within a page are not modelled, because ordering (by rating, report count or creation time) is left to the database. A listing states which rows match and the page arithmetic.
- PostsController.GetPosts: the contract states the selected set, the counts and the page window, but not which rows land on the requested page.
- CommentsController.GetComments: the same as PostsController.GetPosts.
- TemplatesApi.ListTemplates: the same as PostsController.GetPosts.
- TemplatesApi.ListTemplates: the 500 answer of its `catch` (index.js:65-67) is not modelled, because no database error is modelled for that query.
- Authentication (`checkAuth`) and its 401 answers are not part of this model. A caller is the already-verified user id and role, with 0 for a missing id.
- `parseInt` of a non-numeric id yields `NaN` in JavaScript. Here ids, votes, pages and limits arrive as integers.
- Text lengths are counted in characters, not UTF-16 code units, and there is no Unicode case handling. Matching is the exact substring match of Prisma's `contains`.
- Rows the Prisma schema fills in are assumed, not read from the schema: rating 0, not hidden, not reported, editable, empty tags. The `template` field of `createPost`, cascade deletes and the `include`d author or user columns are not modelled.
- PostsController.CreatePost: the 500 body is modelled as the fixed message without the database's error text.
- Failures of the Prisma calls that these handlers do not catch are not modelled: the updates and deletes, the comment and report inserts, and the rating rows. Where a failure would change the answer and the handler catches it, it is a parameter.
- ReportController.GetReports: the joined report rows (report, reporter, post, comment) are supplied as input, already ordered by creation time. The join and its ordering are not modelled.
- In the executor, the file system, process spawning, stream chunking and the session UUID are inputs (`World`, `sessionId`). Console logging is recorded as `Log` effects.
- DockerExecution.Host.Start: stdout and stderr arrive as whole strings, not as a sequence of data events.
- Pagination.TotalPages: computes `Math.ceil` on integers. The floating-point division is not modelled.

## Findings

| source | as written | input that shows it | evidently intended | confidence | as-written member | corrected member |
|---|---|---|---|---|---|---|
| src/controllers/postsController.js:88-103 | the search-term conditions are put into the same `OR` list as `{hidden: false}` and `{hidden: true, authorId: userId}`, so a post matching the term is returned whether or not the caller may see it, and every post the caller may see is returned whether or not it matches the term (`AsWrittenSelects`) | user 1 searches for "x"; a post by user 2 is hidden and its content contains "x"; that post is listed, and so is every visible post without "x" | the search term and the visibility rule are two separate conditions that must both hold | high; not executed | PostsController.AsWrittenShowsHiddenPost | PostsController.PostFilter |
| src/controllers/commentsController.js:73-88 | `queryOptions` has no `orderBy`, so `queryOptions.orderBy.rating = sortBy` throws a TypeError and the request fails with 500 | `sortBy=recent` (the comments section sends this by default) or `sortBy=desc` | sort the comments by rating in that direction, as `getPosts` does | high; not executed | CommentsController.AsWrittenRatingSortThrows | CommentsController.GetComments |

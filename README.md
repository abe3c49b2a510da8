# Poll backend rule layer in Dafny

This project models the request handlers of a small polling service. Clients
create questions, add options to them, vote for options, read a question
back with its options' vote counts and vote links, and delete options or
whole questions. A delete is refused once the option, or any option of the
question, has a vote.

The document store is a class, `Polls.PollStore`, with two maps:

- `questions`: id to `Question(title, options)`. `options` is the ordered list of the question's option ids.
- `options`: id to `PollOption(text, votes, question)`. `question` is the back-reference to the owning question.

The six handlers are methods of that class, except `getQuestion`, which is a
function because it only reads. Each returns a `Result`: the response value,
or an `ApiError` with the message and status code the handler raises (404 or
400). Each handler is one atomic step. New ids are chosen outside both
collections.

The class invariant `Valid()` is `Models.Consistent`, the referential
integrity of the two collections:

- every id in a question's list names an option whose back-reference is that question;
- every option is listed by the question it points at;
- no list holds an id twice;
- every title and text is non-empty and has no whitespace at either end.

Every handler keeps this invariant, and the lemmas in `Integrity` prove it
once per kind of change. Every handler also ensures `VotesKept`: no option
loses votes, and an option only disappears when it has none.

Modules:

- `Text`: whitespace and `trim`, with the JavaScript whitespace set written out.
- `Results`: body fields, errors and results.
- `Models`: the documents, the invariant, `$pull`, the vote check and fresh ids.
- `Integrity`: the invariant-preservation lemmas.
- `Format`: the `getQuestion` projection, vote links and the base-URL finding.
- `Polls`: the store and its handlers.

Request body fields are `Option<string>`. `None` stands for a field that is
absent or is not a string. The request's origin and API prefix reach
`GetQuestion` as an explicit `baseUrl` parameter. That parameter is meant to
be `Format.BaseUrl(protocol, host, API_PREFIX)`, the corrected base URL from
"## Findings".

## Model

| member | source | states |
|---|---|---|
| `Text.TrimStart` | src/controllers/questionController.js:16 | the result is the suffix of the input left after a run of whitespace, and it does not start with whitespace |
| `Text.TrimEnd` | src/controllers/questionController.js:124 | the result is the prefix of the input before a run of whitespace, and it does not end with whitespace |
| `Text.Trim` | src/controllers/questionController.js:16 | `trim()` leaves no whitespace at either end, and its result is empty exactly when the input is all whitespace |
| `Text.TrimIsInfix` | src/models/Question.js:5-9 | trimming removes only whitespace: the input is the result with whitespace runs before and after it |
| `Text.TrimIdempotent` | src/models/Option.js:5-9 | trimming an already trimmed value changes nothing |
| `Models.StoredIffTrimmed` | src/models/Question.js:5-9 | the values a required, trimmed field can hold are exactly the non-empty strings that `trim` leaves unchanged |
| `Models.Members` | src/controllers/questionController.js:85 | the `$in` set of a question's list holds exactly the ids in the list |
| `Models.Pull` | src/controllers/optionController.js:23-25 | `$pull` removes every occurrence of the pulled id and keeps every other element as often as it occurred, and leaves a list without it unchanged |
| `Models.PullAppend` | src/controllers/optionController.js:23-25 | pulling from a joined list is pulling from each part and joining the results, so the kept ids stay in their list order |
| `Models.PullKeepsNoDuplicates` | src/controllers/optionController.js:23-25 | pulling from a list without repeats leaves a list without repeats |
| `Models.HasVotes` | src/controllers/questionController.js:85-86 | true exactly when some id in the list names a stored option with votes > 0 |
| `Models.FreshIdExists` | src/controllers/questionController.js:129 | whatever the stored documents, some id is used by none of them |
| `Models.VotesKeptTransitive` | src/controllers/optionController.js:18-20 | "no vote lost" carries across consecutive steps |
| `Integrity.CreateQuestionKeepsConsistent` | src/controllers/questionController.js:21 | adding a question with a fresh id, a stored title and an empty list keeps referential integrity |
| `Integrity.AddOptionKeepsConsistent` | src/controllers/questionController.js:129-133 | adding an option with a fresh id that points at an existing question, and appending its id to that question's list, keeps referential integrity |
| `Integrity.DeleteQuestionKeepsConsistent` | src/controllers/questionController.js:93-96 | removing a question and exactly the options its list names keeps referential integrity: no orphan option and no dangling id is left |
| `Integrity.DeleteOptionKeepsConsistent` | src/controllers/optionController.js:23-28 | pulling an option's id from its question's list and removing the option keeps referential integrity |
| `Integrity.AddVoteKeepsConsistent` | src/controllers/optionController.js:52-53 | changing an option's vote count keeps referential integrity |
| `Format.VoteLink` | src/controllers/questionController.js:60 | the length of a vote link is that of the base URL plus the id plus the two fixed path pieces |
| `Format.LinkedId` | src/routes/optionRoutes.js:7 | an id is read back only from a URL of exactly the form `VoteLink` builds, and only when it is non-empty and has no '/'; the URL is then exactly the vote link for that id |
| `Format.VoteLinkRoundTrip` | src/controllers/questionController.js:60 | for every non-empty id without '/' (every id the store hands out), the id read back from its vote link is the id the link was made for |
| `Format.OptionViews` | src/controllers/questionController.js:41-61 | each entry copies id, text and votes from a stored option named in the list, with its vote link; every listed id with a stored option gets its entry; when every listed id is stored, the entries follow the list one to one and in order |
| `Format.OptionViewsAppend` | src/controllers/questionController.js:41-61 | the entries for a joined list are the entries for each part in turn, so the view keeps list order even when `populate` drops ids |
| `Format.RoutePrefix` | src/app.js:22 | the routers' prefix is never empty; it is the configured prefix when that is set and non-empty, and otherwise the default "/api/v1" |
| `Format.BaseUrlAsWritten` | src/controllers/questionController.js:48-50 | the handler's base URL is the origin followed by the raw `API_PREFIX`, which is the text "undefined" when the variable is unset |
| `Format.AsWrittenLinkMissesRoute` | src/controllers/questionController.js:48-50 | for every protocol, host and id: with the routers under the default prefix, the link the handler builds is not the URL of the vote route unless the prefix it reads is exactly "/api/v1" |
| `Format.VoteLinkFollowsRoute` | src/app.js:22-26 | a link built from the routers' own prefix is the URL of the vote route for that option, whatever the environment |
| `Polls.Missing` | src/controllers/questionController.js:16 | a body field is rejected exactly when it is absent or all whitespace |
| `Polls.PollStore.CreateQuestion` | src/controllers/questionController.js:13-21 | a missing or blank title gives 400 "Question title is required" and changes nothing; otherwise exactly one question is added, under a fresh id, with the trimmed title and an empty list, and nothing else changes; the invariant is kept |
| `Polls.PollStore.GetQuestion` | src/controllers/questionController.js:41-61 | an unknown id gives 404 "Question not found"; otherwise the view has the question's id and title and, under the invariant, one entry per listed option in list order, each with that option's id, text and votes and the link `baseUrl + "/options/" + id + "/add_vote"` |
| `Polls.PollStore.DeleteQuestion` | src/controllers/questionController.js:78-96 | an unknown id gives 404 and changes nothing; if a listed option has votes it gives 400 "Cannot delete question with votes" and changes nothing; otherwise it removes the question and exactly the options its list names, and nothing else changes; the invariant is kept |
| `Polls.PollStore.AddOption` | src/controllers/questionController.js:115-133 | an unknown question gives 404 whatever the text; a missing or blank text gives 400 "Option text is required" and changes nothing; otherwise exactly one option is added, under a fresh id, with the trimmed text, 0 votes and the question as back-reference, and its id becomes the last element of that question's list; the invariant is kept |
| `Polls.PollStore.DeleteOption` | src/controllers/optionController.js:13-28 | an unknown id gives 404 and changes nothing; an option with votes gives 400 "Cannot delete option with votes" and changes nothing; otherwise every occurrence of its id is pulled from its question's list, the option is removed, and no list refers to it afterwards; the invariant is kept |
| `Polls.PollStore.AddVote` | src/controllers/optionController.js:47-53 | an unknown id gives 404 and changes nothing; otherwise that option's votes grow by exactly 1, its text and question are unchanged, and no other option or question changes |

## Left out

- HTTP plumbing is not modelled: routing, the catch-all 404, the global error handler, the JSON envelopes and status bodies, logging, start-up and the database connection.
- The process-wide `BASE_URL` stash is not modelled. `GetQuestion` takes the base URL as a parameter instead.
- Persistence is not modelled: Mongoose, `populate` beyond its effect on the list, timestamps, and the ObjectId format. Ids are strings, and a new id is any non-empty string without a `/` (as ObjectId hex text is) that no document uses.
- The "any thrown store error becomes a 400" branches are not modelled. They depend on database failures the model cannot see.
- Concurrency is not modelled. Each handler is one atomic step, so the lost update of the read-modify-write vote cannot occur. A half-finished dual write (option created but not listed, or pulled but not deleted) cannot occur either.
- Polls.Missing: a body field that is present but is not a string is folded into `None`. A falsy one (`0`, `false`, `null`) gets the same "is required" 400 as in the source. A truthy one makes `.trim()` throw, which the source turns into a 400 carrying the TypeError's message; the model gives the "is required" message instead.
- Format.LinkedId: it reads only URLs of exactly the form `VoteLink` builds. Express's route at src/routes/optionRoutes.js:7 also accepts a trailing slash, ignores a query string or fragment, matches its fixed parts in any letter case, and percent-decodes `:id`; none of that is modelled. An id containing `?` or `#` would end the path early in a real URL, and the model does not exclude such ids. The ids the store hands out (ObjectId hex) have none of these characters.
- Polls.PollStore.AddVote: votes are unbounded naturals. The source stores a JavaScript number, which is exact only up to 2^53.
- Polls.PollStore.GetQuestion: the one-to-one match between the list and the view's entries is stated only under the invariant. Without the invariant, `populate` drops ids with no stored option; `Format.OptionViews` and `Format.OptionViewsAppend` state that every stored listed option still gets its entry and that the entries keep list order.
- Polls.PollStore.GetQuestion, Polls.PollStore.DeleteQuestion, Polls.PollStore.AddOption, Polls.PollStore.DeleteOption, Polls.PollStore.AddVote: an `Id` parameter stands for a well-formed ObjectId string, so an unknown id gives 404 as in the source. A malformed id makes `findById` throw a CastError, which the source answers with 400 and Mongoose's cast message; the model does not distinguish such ids and answers 404.

## Findings

| source | as written | input that shows it | evidently intended | confidence | as-written member | corrected member |
|---|---|---|---|---|---|---|
| src/controllers/questionController.js:48-50 | the vote link's base URL uses `process.env.API_PREFIX` directly, while the routers are mounted under `process.env.API_PREFIX \|\| "/api/v1"` (src/app.js:22-26) | `API_PREFIX` unset: the link is `http://localhost:5000undefined/options/1/add_vote`, but the vote route is at `/api/v1/options/1/add_vote`. Also `API_PREFIX=/api/v2` set only in `.env`: src/app.js:22 runs when server.js:2 imports it, before server.js:6 loads `.env`, so the routes stay under `/api/v1` while the link says `/api/v2` | the link uses the same prefix as the routers | medium, not executed; the links are right only when `API_PREFIX` is "/api/v1" at request time, or is set in the process environment at start-up | `Format.AsWrittenLinkMissesRoute` | `Format.VoteLinkFollowsRoute` |

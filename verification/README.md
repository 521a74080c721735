# fetch_config — verified model of the listing → menu → selection core

`fetch_config.py` is an interactive script that reads a GitHub personal
access token, lists the top-level folders of one fixed private repository
(`Alexsik76/configs`), lets the user pick a folder by number, lists the
files in it, lets the user pick a file by number, asks for a local
destination (defaulting to `/tmp/<file>`), and downloads the file's raw
bytes there.

This project models the pure part of that flow in Dafny and proves what it
does:

- `common.dfy` — `Option`, `Result`, `byte`, and the fatal errors
  (`EmptyToken`, `ParseFailure`, `EmptyResponse`, `NothingFound`) that the
  script reports through its error-exit helper. Here they are result
  values, not process exits.
- `decimal.dfy` — Python's `str(k)` for naturals (`Show`), `str.isdigit`
  on ASCII digits (`IsDigits`), and the value of a digit string (`Value`).
  It proves that the strings `str(k)` for k ≥ 1 are exactly the digit
  strings without a leading zero.
- `listing.dfy` — listing entries (name plus optional `type`) and the type
  filter, with a reference definition by matching positions.
- `menu.dfy` — the selection map `str(i + 1) → name`, the acceptance test
  `isdigit() and in map`, its characterisation (a numeral without a leading
  zero in 1..N), and the re-prompt loop over a given sequence of typed
  lines.
- `api.dfy` — request URL, folder and content paths, default destination,
  the token check, and the Accept-header dispatch between raw bytes and a
  decoded listing.
- `workflow.dfy` — one selection step (empty checks, filter, menu, loop)
  and the whole run. The run records the URLs it requests, and the remote
  service is a given function from URL to response body. The run is proved
  equal, in outcome and requests, to a reference definition built from the
  pure selection functions.

## Model

| member | source | states |
|---|---|---|
| Decimal.Show | fetch_config.py:90 | `str(n)` is a non-empty digit string; it has no leading zero when n > 0 and is `"0"` for 0 |
| Decimal.ValueOfShow | fetch_config.py:90 | reading back `str(n)` gives n, so menu keys for different positions differ |
| Decimal.PositiveValue | fetch_config.py:96 | a digit string without a leading zero denotes a number ≥ 1 |
| Decimal.ShowOfValue | fetch_config.py:96 | every digit string without a leading zero is `str` of its value, so such strings are exactly the renderings of positive numbers |
| Listing.Filter | fetch_config.py:82-84 | the names kept are never more than the entries listed |
| Listing.Positions | fetch_config.py:82-84 | reference: the strictly increasing positions of the entries whose type equals the tag, all of them |
| Listing.FilterIsProjection | fetch_config.py:82-84 | the k-th name offered is the name of the k-th entry of the requested type, so order is kept and entries of other or missing type are dropped |
| Listing.FilterMembership | fetch_config.py:115-117 | a name is offered if and only if some entry of the requested type carries it |
| Listing.FilterEmpty | fetch_config.py:86-87 | the filtered list is empty exactly when no entry has the requested type |
| Listing.FilterAppend | fetch_config.py:115-117 | filtering a listing split in two gives the two filtered parts in their original order |
| Menu.SelectionMap | fetch_config.py:89-90 | every key of the map passes `isdigit()` and every value is one of the offered names |
| Menu.Accepts | fetch_config.py:96 | the script's test `line.isdigit() and line in map`; its meaning is proved in `AcceptsIffValidChoice` |
| Menu.SelectionMapShape | fetch_config.py:89-90 | the map has exactly N keys, key `str(k)` maps to the (k-1)-th name for k in 1..N, and every key is a valid choice for N entries |
| Menu.AcceptsIffValidChoice | fetch_config.py:96 | a line passes `isdigit() and line in map` if and only if it is a numeral without a leading zero with value in 1..N |
| Menu.AcceptedLineResolves | fetch_config.py:101 | a valid line is a key of the map and resolves to the name at position value-1 |
| Menu.RejectedLines | fetch_config.py:129 | `""`, `"0"`, `"01"`, `str(N+1)` and any line with a non-digit character are turned away |
| Menu.PromptLoop | fetch_config.py:94-101 | the loop returns the first accepted line and the name it maps to, and every earlier line was rejected; when nothing is returned, every line was rejected |
| Menu.FirstValid | fetch_config.py:127-134 | reference: the position of the first valid choice, with every earlier line invalid; absent only when no line is valid |
| Menu.FirstValidAt | fetch_config.py:94-97 | a valid line preceded only by invalid lines is the first valid choice |
| Menu.Resolve | fetch_config.py:101 | a name is resolved exactly when some line is a valid choice, and the name resolved is one of the offered names |
| Api.RequestUrl | fetch_config.py:40 | the URL is the fixed `https://api.github.com/repos/Alexsik76/configs/` prefix followed by the API path, nothing inserted or removed |
| Api.RequestUrlInjective | fetch_config.py:40 | different API paths give different URLs |
| Api.FolderPath | fetch_config.py:106 | the folder listing path is `contents/` followed by the folder name, nothing else |
| Api.ContentPath | fetch_config.py:148 | the content path is the folder's listing path, then `/`, then the file name |
| Api.FirstSlashAfterPrefix | fetch_config.py:148 | in a content path the first slash after `contents/` ends the folder name |
| Api.ContentPathInjective | fetch_config.py:148 | the folder and file are recovered from a content path when the folder name has no slash |
| Api.Destination | fetch_config.py:140-145 | an empty typed line gives a path that starts with `/tmp/` and whose rest is the file name; any other line is used unchanged |
| Api.CheckToken | fetch_config.py:32-33 | the token is accepted if and only if it is non-empty, and is then passed on unchanged |
| Api.Interpret | fetch_config.py:51-54 | the exact raw Accept header returns the body bytes unchanged; every other header yields the decoded listing, or a parse failure exactly when decoding fails |
| Workflow.ChooseEntry | fetch_config.py:75-101 | empty listing is `EmptyResponse`, empty filter is `NothingFound`, and in neither case is a pick made; otherwise the pick is the first valid line and the name it denotes |
| Workflow.ExpectedStep | fetch_config.py:73-101 | reference for one selection step on a received body: a pick exactly when the offered names have a valid choice among the lines, and a fatal stop exactly when no name is offered (body not decoded, null, empty, or without entries of the type) |
| Workflow.Run | fetch_config.py:32-157 | the outcome and the requested URLs equal the reference run: an empty token stops before any request; a parse failure, null or empty listing, or no entry of the type is fatal at the stage reached; a folder is requested only after a valid folder pick and the content only after a valid file pick and a typed destination; the run is abandoned only when the lines run out at a prompt; a saved file has the destination rule applied and the raw bytes unchanged |
| Workflow.RunSavesWhenEveryStepSucceeds | fetch_config.py:73-157 | progress: with a token, a valid folder pick, a valid file pick and a typed destination, the run saves that file from the three requests root, folder, content |
| Workflow.RootListingScenario | fetch_config.py:82-84 | worked example only: the listing `env` (dir), `readme.md` (file) offers only `env` |
| Workflow.OneEntryMenuScenario | fetch_config.py:94-101 | worked example only: with one entry, `"2"` is rejected and the following `"1"` picks it |

## Left out

- Terminal I/O (`getpass`, `input`, `print`): each menu prompt reads from a given sequence of lines, and the destination prompt reads one line or `None`. Running out of input (end of input, which raises `EOFError` in the script) is the `OutOfInput`/`Abandoned` outcome; at the destination prompt it happens before the content request, so nothing is saved.
- A failure to read the token (fetch_config.py:29-30): terminal I/O.
- HTTP, URL and other exception classification in the request helper (fetch_config.py:55-69): network plumbing. The remote service is modelled as a total function from URL to body, so a request never fails at the transport level.
- UTF-8 decoding and `json.loads` (fetch_config.py:54): foreign parsers. A body carries its already-decoded value, with `None` for a body that does not decode. The script reports a UTF-8 decoding failure as an unexpected error, not a JSON error; the model folds both into `ParseFailure`.
- JSON values other than `null` or an array (an object, a number) as a listing: the script's loop over them does not model a listing. A missing `name` key is not modelled: every entry has a name.
- The authorization and Accept request headers are not carried by the model, beyond the Accept header's role in `Api.Interpret`.
- Writing the file (fetch_config.py:156-157), its error path (fetch_config.py:160-161), and process exit codes: local I/O. `Saved` carries the destination and the bytes that would be written.
- Api.Destination: models `os.path.join("/tmp", name)` only as `"/tmp/" + name`. An absolute file name, which would replace `/tmp`, is not modelled; repository entry names never start with `/`.
- Decimal.IsDigits: models `str.isdigit` on ASCII `'0'..'9'` only. Other Unicode digits pass `isdigit` in the script but never equal a key `str(k)`, so the accepted lines are the same.
- The token check follows the code, which rejects only the empty string; a token of spaces is accepted (no trimming happens).

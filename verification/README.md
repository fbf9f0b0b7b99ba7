# politicos-br core, modelled in Dafny

politicos-br is a Next.js site about the Brazilian Chamber of Deputies (Câmara dos
Deputados). It reads the Câmara's open-data API through a proxy route and a cached HTTP
client. It normalises the upstream records into local `Deputy`, `Proposicao`, `Despesa`,
`Comissao` and `CareerEvent` records. It filters and paginates deputies on the search page
and summarises expenses for two charts.

This project models that core:

- `js.dfy` (`Js`): the JavaScript semantics the code relies on. This covers `undefined`/`null`
  (`Nullable`), truthiness, `||` and `??` on strings, `toLowerCase`/`toUpperCase` on ASCII and Latin-1 letters,
  `trim`, `includes`, `split`/`join`, `slice`, number printing and `parseInt` on digits.
- `seqs.dfy` (`Seqs`): `Array.prototype.filter` and the facts about it the filters use.
- `api_client.dfy` (`ApiClient`): the time-to-live cache `SimpleCache` and `HttpClient`. Both are
  classes whose methods update the cache map in place, proved against functions of the old map.
- `api_responses.dfy` (`ApiResponses`): the upstream-to-local normalisers and `formatDate`.
- `camara_api.dfy` (`CamaraApi`): the service functions (request parameters, mapping of
  answers, error messages) and the attendance tally loop.
- `entities.dfy` (`Entities`): the local records.
- `expenses.dfy` (`Expenses`): category grouping, the descending sort and monthly sums.
  These are shared by the mock helpers and the charts.
- `mock_deputies.dfy` (`MockDeputies`): `getDeputyById`, `searchDeputies`,
  `getExpensesByCategory` and `getExpensesByMonth` over the sample list.
- `search_page.dfy` (`SearchPage`): the search page's filtering on the API and fallback paths, its
  pagination arithmetic and its state (a class).
- `expense_chart.dfy` (`ExpenseChart`), `pie_chart.dfy` (`PieChart`): the chart data.
- `proposicoes_route.dfy` (`ProposicoesRoute`): the proxy route's query rewrite and error mapping.

The clock (`Date.now()`) is the parameter `now` where `request` reads the cache, and `storedAt` (no earlier) where `set` reads it again after the fetch. What `fetch` did is the parameter `outcome`, a
`FetchOutcome`: an answer with a status and a parsed body, or a thrown error with a name and a
message. Each service of `camara-api.ts` takes what `httpClient.get` produced for it. The
locale date formatting of `formatDate`'s last branch is the function parameter `localeDate`.
Money (`valor`) is an `int`, read as centavos.

## Model

| member | source | states |
|---|---|---|
| ApiClient.SimpleCache.constructor | src/services/api-client.ts:14-15 | a new cache is empty |
| ApiClient.SimpleCache.Set | src/services/api-client.ts:17-23 | the entry of `key` becomes the data stored at `now` with expiry `now + duration` (five minutes by default); the other entries are unchanged |
| ApiClient.SimpleCache.Get | src/services/api-client.ts:25-35 | returns the stored data unless the key is missing or `now > expiry`; an expired entry is deleted and nothing else changes |
| ApiClient.SimpleCache.Clear | src/services/api-client.ts:37-39 | the cache is empty afterwards |
| ApiClient.SimpleCache.Cleanup | src/services/api-client.ts:42-49 | the loop over the entries leaves exactly the entries with `now <= expiry` |
| ApiClient.SetThenGet | src/services/api-client.ts:17-35 | after `set(k, v, d)` at time t, `get(k)` returns v at every time up to and including t + d (the check is strict `>`) and deletes nothing |
| ApiClient.SetThenGetExpired | src/services/api-client.ts:17-32 | after t + d the same `get` returns null and removes that one entry |
| ApiClient.SetDefaultExpiry | src/services/api-client.ts:17-23 | without a duration the expiry is now + 300000 ms |
| ApiClient.OtherKeysUntouched | src/services/api-client.ts:17-32 | `set` and `get` on one key leave every other key's presence and entry as they were |
| ApiClient.CleanupExact | src/services/api-client.ts:42-49 | a key survives `cleanup` iff it was present with `now <= expiry`, and a survivor keeps its entry |
| ApiClient.ExpiryIsInvisible | src/services/api-client.ts:25-49 | deleting expired entries, by `get` or by `cleanup`, changes the answer of no later `get` |
| ApiClient.Classify | src/services/api-client.ts:113-143 | an ok status yields the body; a non-ok one throws `{message: "HTTP <status>: <statusText>", status, endpoint}`; an `AbortError` becomes the timeout message; another error whose message contains `fetch` becomes the connection message; anything else is rethrown unchanged |
| ApiClient.CacheKeySeparatesDurations | src/services/api-client.ts:86-87 | two requests that differ only in `cacheDuration` (which `get` spreads into the options) have different cache keys |
| ApiClient.KeyParts | src/services/api-client.ts:86-87 | the cache key is the URL, the serialised `method`/`enableCache`, then the `cacheDuration` member and the closing brace |
| ApiClient.CachedBodyServed | src/services/api-client.ts:90-95 | with caching on, a fresh truthy cached body is returned, no request is made and the cache is unchanged |
| ApiClient.FailureNotCached | src/services/api-client.ts:113-143 | a failed request always fetched and returns exactly the classified error; it adds or changes no entry, and at most drops its own expired one |
| ApiClient.UncachedRequest | src/services/api-client.ts:83-125 | with caching off the request always fetches and leaves the cache untouched |
| ApiClient.SuccessThenHit | src/services/api-client.ts:90-127 | a truthy successful body fetched with caching on expires `cacheDuration` after the moment it is stored, and until then the same request serves it from the cache without fetching |
| ApiClient.KeptParams | src/services/api-client.ts:158-162 | no more pairs are sent than given |
| ApiClient.QueryString | src/services/api-client.ts:163 | the query string is empty iff there are no pairs |
| ApiClient.KeptParamsExact | src/services/api-client.ts:158-162 | every pair whose value is neither `undefined` nor `null` is sent as `String(value)`; every pair sent comes from such a pair; nothing is sent iff every value is missing |
| ApiClient.KeptParamsOmit | src/services/api-client.ts:159 | a key all of whose values are `undefined`/`null` is not sent |
| ApiClient.KeptParamsAllPresent | src/services/api-client.ts:158-162 | with every value present, each pair is sent, in the given order |
| ApiClient.BareEndpoint | src/services/api-client.ts:163-164 | the URL is the bare endpoint, without `?`, iff no parameter is left to send |
| ApiClient.AppendParams | src/services/api-client.ts:157-162 | the loop appends exactly the kept pairs, in order |
| ApiClient.HttpClient.constructor | src/services/api-client.ts:75-78 | the client keeps its base URL, its timeout and the shared cache |
| ApiClient.HttpClient.Request | src/services/api-client.ts:80-144 | the result, whether a fetch happened and the new cache are those of the cache-then-fetch specification for key `baseUrl + endpoint + JSON.stringify(options)`, with the cache read at `now` and a success stored at the later `storedAt` |
| ApiClient.BuildUrl | src/services/api-client.ts:155-164 | the URL starts with the endpoint; it is the bare endpoint iff there are no params or none is kept; otherwise the endpoint, `?` and the query string of the kept pairs |
| ApiClient.HttpClient.Get | src/services/api-client.ts:146-171 | builds the URL from the kept parameters, then behaves as `request` with `{method: 'GET', ...options}`, caching only when `enableCache` is `true` |
| ApiClient.HttpClient.ClearCache | src/services/api-client.ts:181-183 | the shared cache is empty afterwards |
| ApiClient.HttpClient.CleanupCache | src/services/api-client.ts:186-188 | the shared cache keeps exactly its unexpired entries |
| ApiResponses.FormatDate | src/types/api-responses.ts:422-442 | an empty text gives `''`; a text with a dash is rearranged around slashes (the dash pieces reversed, `DD/MM/YYYY`, see `FormatIsoDate`); a text with a slash and no dash is returned as it is; anything else goes to the locale formatter |
| ApiResponses.FormatField | src/types/api-responses.ts:422-433 | a missing, null or empty date formats as `''`; a date with a slash and no dash is kept |
| ApiResponses.FormatIsoDate | src/types/api-responses.ts:422-430 | `Y-M-D` becomes `D/M/Y` |
| ApiResponses.FormatDateIsoExample | src/types/api-responses.ts:427-430 | `2024-03-15` becomes `15/03/2024` |
| ApiResponses.FormatDateNotADate | src/types/api-responses.ts:427-430 | any text with a dash is taken apart as a date: `not-a-date` becomes `date/a/not` |
| ApiResponses.FormatDateExtraPieces | src/types/api-responses.ts:429-430 | pieces after the third are ignored |
| ApiResponses.FormatDateMissingPiece | src/types/api-responses.ts:429-430 | a missing third piece prints as `undefined` |
| ApiResponses.FormatDateSlash | src/types/api-responses.ts:431-433 | a text with a slash and no dash is returned unchanged |
| ApiResponses.FormatDateIdempotent | src/types/api-responses.ts:422-433 | formatting an empty, dashed or slashed date a second time changes nothing |
| ApiResponses.ProposalStatusOfKey | src/types/api-responses.ts:405-419 | `aprovada`, `arquivada` and `rejeitada` select their statuses, each iff that key; every other key is `Em Tramitação` |
| ApiResponses.NormalizeProposalStatus | src/types/api-responses.ts:403-420 | the lower-cased, trimmed status selects Aprovada/Arquivada/Rejeitada iff it is that word; a missing status and everything else give `Em Tramitação` |
| ApiResponses.DeputyStatusOfKey | src/types/api-responses.ts:390-400 | `afastado` and `licenciado` select their statuses iff that key; every other key is `Exercício` |
| ApiResponses.NormalizeDeputyStatus | src/types/api-responses.ts:386-401 | a missing or empty status is `Exercício`; otherwise Afastado/Licenciado iff the normalised text is that word, and `Exercício` for anything else |
| ApiResponses.StatusKeyInsensitive | src/types/api-responses.ts:389-404 | the normalised key is the same for a text, its lower-cased form and its trimmed form |
| ApiResponses.ProposalStatusIgnoresCaseAndSpace | src/types/api-responses.ts:403-420 | the proposal normaliser gives the same status for a text, its lower-cased form and its trimmed form |
| ApiResponses.DeputyStatusIgnoresCaseAndSpace | src/types/api-responses.ts:386-401 | the deputy normaliser gives the same status for a text, its lower-cased form and its trimmed form, an all-blank text selecting the default as the empty text does |
| ApiResponses.StatusIgnoresCaseAndSpace | src/types/api-responses.ts:386-420 | both normalisers give the same status for a text, its lower-cased form and its trimmed form |
| ApiResponses.FirstIncluding | src/types/api-responses.ts:296-299 | the slot is `''` iff no URL contains the fragment, and otherwise is a URL that contains it |
| ApiResponses.MapCamaraDeputyToLocal | src/types/api-responses.ts:280-330 | situacao is always `Exercício`; the career, proposals, expenses and committees are empty; both stats blocks are zero; nomeCompleto is nome; the id is never empty (birth date and birthplace: `ApiResponses.BirthFields`) |
| ApiResponses.ShapesAgree | src/types/api-responses.ts:281-315 | the list shape (fields at the top) and the detail shape (fields under `ultimoStatus`) of the same deputy normalise to the same record |
| ApiResponses.TopLevelFirst | src/types/api-responses.ts:283-315 | with or without `ultimoStatus` (read as `{}` when missing), nome (then nomeCivil), partido, uf, foto, legislatura and escolaridade come from the top level when not null/undefined, and from `ultimoStatus` only otherwise (partido last from `ultimoStatus.partido`); missing at every level, nome, partido, uf, foto and escolaridade are `''` and legislatura is 0 |
| ApiResponses.OfficeSource | src/types/api-responses.ts:284-322 | the office is `gabinete`, else `ultimoStatus.gabinete`; email and telefone come only from that office, `''` when absent |
| ApiResponses.DeputyId | src/types/api-responses.ts:287-303 | the id is `String(id)` for a truthy id, top level first and then `dados.id`, and `unknown` otherwise: a top-level 0, or no top-level id with `dados` missing or a falsy `dados.id` |
| ApiResponses.SocialLinkSlots | src/types/api-responses.ts:285-300 | each social-link slot equals `FirstIncluding(redeSocial ?? [], name)`: the first URL containing twitter/instagram/facebook/youtube, or `''` when none does |
| ApiResponses.BirthFields | src/types/api-responses.ts:313-314 | dataNascimento is `formatDate` of dataNascimento, else of data, else `''`; naturalidade is `<municipioNascimento> - <ufNascimento>` (the municipality as a template prints it) when ufNascimento is a non-empty string, `''` otherwise |
| ApiResponses.MapCamaraProposicaoToLocal | src/types/api-responses.ts:332-342 | the id is the printed number; numero and ano are copied; tipo and ementa are the upstream text when non-empty, else `''`; the date is `formatDate` of `dataApresentacao`; the status is the normalised `statusProposicao.sigla`, `Em Tramitação` when there is none |
| ApiResponses.MapCamaraDespesaToLocal | src/types/api-responses.ts:344-352 | mes and ano are copied; a non-empty category, a non-zero value and a present supplier name pass through; otherwise they become `''`, 0 and `''` (also when `fornec` is present without a name) |
| ApiResponses.MapCamaraOrgaoToLocal | src/types/api-responses.ts:354-363 | sigla is siglaOrgao and tipo is codTitulo, each `''` when missing or empty; titulo is `''` iff missing or the literal `null`; nome is nomePublicacao, else nomeOrgao, else `''`; dataInicio is the formatted date; dataFim is absent iff upstream has none, and formatted otherwise |
| ApiResponses.MapCamaraHistoricoToLocal | src/types/api-responses.ts:365-367 | without a timestamp the year is 0 |
| ApiResponses.DatePartsOf | src/types/api-responses.ts:366 | `Y-M-DThh:mm` splits into the pieces Y, M, D |
| ApiResponses.HistoricoDated | src/types/api-responses.ts:365-381 | a full timestamp gives its year and the description `DD/MM/YYYY - <status>` |
| ApiResponses.HistoricoUndated | src/types/api-responses.ts:366-381 | with no timestamp and no status the year is 0 and the description is `- Não informado` |
| ApiResponses.HistoricoRole | src/types/api-responses.ts:380 | the role always begins with the term number followed by `ª Legislature` |
| ApiResponses.HistoricoDescription | src/types/api-responses.ts:381 | the description ends with `- ` and the status, or `Não informado` without one |
| CamaraApi.ErrorText | src/services/camara-api.ts:55 | an `Error`'s message is kept; the plain object thrown for an HTTP status becomes `Erro desconhecido` |
| CamaraApi.StatusFailureIsUnknown | src/services/camara-api.ts:53-56 | a service that fails on an HTTP status reports `<prefix>: Erro desconhecido`, and on a timeout `<prefix>: ` and the timeout message |
| CamaraApi.SearchQuery | src/services/camara-api.ts:33-44 | the parameter object has the keys nome, siglaUf, siglaPartido, itens, pagina, ordem and ordenarPor, in that order |
| CamaraApi.SearchQueryMerge | src/services/camara-api.ts:34-43 | every caller field that is not undefined overrides the computed one, so nome is sent untrimmed, the codes are not upper-cased and itens 0 stays 0; a missing field takes 20, 1, ASC or nome |
| CamaraApi.DefaultSearchPairs | src/services/camara-api.ts:37-43 | with no parameters the query is `itens=20`, `pagina=1`, `ordem=ASC`, `ordenarPor=nome` |
| CamaraApi.NullItensNotSent | src/services/camara-api.ts:37-43 | a `null` page size overrides the default and is then dropped, so no itens is sent |
| CamaraApi.SearchWithFiltersParams | src/services/camara-api.ts:214-226 | query, partido, uf and itens become nome, siglaPartido, siglaUf and itens; nothing else is set |
| CamaraApi.SearchDeputies | src/services/camara-api.ts:29-57 | on success, every deputy of the answer normalised, in order; on failure, `Falha ao buscar deputados: ` and the cause's text |
| CamaraApi.GetDeputyById | src/services/camara-api.ts:63-85 | null iff dados is missing or its id is falsy; otherwise the normalised record; failures carry their prefix |
| CamaraApi.FoundDeputyHasId | src/services/camara-api.ts:76-80 | a deputy found by id carries the printed upstream id, never `unknown` |
| CamaraApi.ProposalsQuery | src/services/camara-api.ts:97-104 | the request sends idDeputadoAutor (`parseInt(id)`, `NaN` when it fails), itens (default 20), pagina (default 1) and ordem (default `DESC`), in that order |
| CamaraApi.ProposalsAuthorId | src/services/camara-api.ts:100 | a printed deputy id is sent as that number |
| CamaraApi.ProposalOf | src/services/camara-api.ts:111-119 | each proposal has status `Em Tramitação`, the printed id, numero and ano, tipo = siglaTipo and ementa = ementa (each `''` when missing or empty), and the raw date or `''` |
| CamaraApi.GetDeputyProposals | src/services/camara-api.ts:91-124 | at most the first 20 items, in upstream order, each mapped by the service's own mapping; `[]` without dados |
| CamaraApi.ProposalsAllInProgress | src/services/camara-api.ts:117 | every proposal the service returns is `Em Tramitação` |
| CamaraApi.ProposalDateUnformatted | src/services/camara-api.ts:118 | the service keeps `Y-M-D` unformatted, where the shared normaliser would give `D/M/Y` |
| CamaraApi.DeputyDetailEndpoint | src/services/camara-api.ts:21 | the detail path is `/api/deputados/` followed by the id |
| CamaraApi.GetDeputyExpensesAsWritten | src/services/camara-api.ts:150-179 | a single-record `dados` makes `.map` throw, rethrown as `Falha ao buscar despesas: ` plus the `TypeError` text; on a list, on no `dados` and on a failure it agrees with `GetDeputyExpenses` |
| CamaraApi.ExpensesFailOnDetailAnswer | src/services/camara-api.ts:64-66 | the expenses request goes to the detail endpoint, whose single-record answer makes the service as written fail |
| CamaraApi.GetDeputyExpenses | src/services/camara-api.ts:167-174 | on a list, every record is mapped as by `mapCamaraDespesaToLocal`: categoria, valor and fornecedor pass through when truthy and default to `''`, 0 and `''`; `[]` when dados is missing; failures carry their prefix |
| CamaraApi.ExpensesQuery | src/services/camara-api.ts:154-160 | the request sends ano as given, then itens (default 20), pagina (default 1), ordem (default `DESC`) and ordenarPor (default `ano`) |
| CamaraApi.ExpensesWithoutYear | src/services/camara-api.ts:155-162 | without a year no ano is sent; the four other keys are |
| CamaraApi.GetDeputyOrgaos | src/services/camara-api.ts:252-270 | one committee per record, each `mapCamaraOrgaoToLocal` of its record and none titled `null`, `[]` without dados; failures carry their prefix |
| CamaraApi.GetDeputyHistorico | src/services/camara-api.ts:276-294 | one career event per record, each `mapCamaraHistoricoToLocal` of its record with the role beginning with its term number and `ª Legislature`, `[]` without dados; failures carry their prefix |
| CamaraApi.TallyOf | src/services/camara-api.ts:326-337 | an event counts only when held (situacao contains `realizada` or `emandada`); then `presentes`/`presença` is a presence, `ausência justificada` a justified absence, exactly `ausência` an unjustified one, and anything else nothing |
| CamaraApi.CountOf | src/services/camara-api.ts:326-338 | a counter never exceeds the number of events |
| CamaraApi.TallyPresence | src/services/camara-api.ts:322-347 | the `forEach` with its three counters computes the attendance summary of the events |
| CamaraApi.GetDeputyPresence | src/services/camara-api.ts:300-357 | the tally of the events received (none without dados); all zeros when the request failed |
| CamaraApi.CountsPartition | src/services/camara-api.ts:326-338 | each event raises at most one counter |
| CamaraApi.SessionsBounded | src/services/camara-api.ts:340-347 | sessoes is the sum of the three counters and never exceeds the number of events |
| CamaraApi.NotHeldIgnored | src/services/camara-api.ts:328 | an event that was not held changes no counter |
| CamaraApi.CountAppend | src/services/camara-api.ts:326 | counting is additive over consecutive runs of events |
| CamaraApi.HeldPresence | src/services/camara-api.ts:327-331 | a `Realizada` session with `Presença` counts one session and one presence |
| CamaraApi.GetDeputyVotingStats | src/services/camara-api.ts:363-377 | all four counts are zero for every deputy |
| Expenses.Add | src/components/charts/ExpenseChart.tsx:14-22 | one grouping step keeps the group names, appending the category only when it is new |
| Expenses.GroupByStep | src/data/mockDeputies.ts:636-642 | the groups of one more expense are the groups so far with that expense added |
| Expenses.AddValueOf | src/components/charts/ExpenseChart.tsx:14-22 | one step adds the value to its own category and to no other |
| Expenses.AddTotal | src/components/charts/ExpenseChart.tsx:14-22 | one step adds the value to the grand total |
| Expenses.GroupByValueOf | src/data/mockDeputies.ts:636-642 | each category's group holds the sum of that category's valor |
| Expenses.GroupByTotal | src/data/mockDeputies.ts:633-645 | grouping preserves the grand total |
| Expenses.GroupByNames | src/components/charts/ExpenseChart.tsx:13-24 | one group per category: the names are distinct and are exactly the categories that occur |
| Expenses.GroupOrderStable | src/components/charts/ExpenseChart.tsx:17-22 | the groups of a prefix of the expenses name a prefix of the final groups |
| Expenses.NewCategoryAppended | src/components/charts/ExpenseChart.tsx:17-22 | a category not seen before opens a new group right after the existing ones, so groups are in order of first appearance |
| Expenses.ValueOfDistinct | src/data/mockDeputies.ts:644-645 | with distinct names, a category's sum is the value of its one group |
| Expenses.HasCategoryLast | src/components/charts/ExpenseChart.tsx:13-24 | the categories of the expenses are those of all but the last plus the last one's |
| Expenses.AddExisting | src/components/charts/ExpenseChart.tsx:14-16 | adding to an existing category updates that group where it stands |
| Expenses.AddNew | src/components/charts/ExpenseChart.tsx:17-22 | adding a new category appends a group |
| Expenses.InsertDesc | src/data/mockDeputies.ts:646 | inserting keeps every element and adds one |
| Expenses.InsertDescSorted | src/data/mockDeputies.ts:646 | inserting into a list sorted by value, largest first, keeps it sorted |
| Expenses.SortDesc | src/data/mockDeputies.ts:646 | `sort((a, b) => b.value - a.value)` yields a permutation sorted by value, largest first |
| Expenses.TotalSort | src/data/mockDeputies.ts:646 | sorting preserves the total |
| Expenses.YearIsSumOfMonths | src/data/mockDeputies.ts:651-656 | the year's total is the sum of the twelve monthly totals |
| Expenses.SortedGroupsAreCategorySums | src/data/mockDeputies.ts:633-646 | every sorted entry is a category that occurs, holding that category's total |
| MockDeputies.GetDeputyById | src/data/mockDeputies.ts:595-597 | none iff no deputy has the id; otherwise a deputy of the list with that id |
| MockDeputies.Stage | src/data/mockDeputies.ts:609-628 | each filter that is set narrows the previous result to the first n conditions; an unset one leaves it as it is |
| MockDeputies.SearchDeputies | src/data/mockDeputies.ts:599-631 | the successive filters return the list filtered by every condition that is set |
| MockDeputies.AllStages | src/data/mockDeputies.ts:609-628 | the four conditions together are the search predicate |
| MockDeputies.SearchKeepsOrder | src/data/mockDeputies.ts:607-630 | the result is an order-preserving sub-list of the input |
| MockDeputies.SearchAll | src/data/mockDeputies.ts:607-630 | an empty query with no filters returns the whole list |
| MockDeputies.SearchMembership | src/data/mockDeputies.ts:609-628 | a deputy is kept iff its lower-cased nome, nomeCompleto or partido contains the lower-cased query (when there is one), and partido, uf and situacao equal each filter that is set |
| MockDeputies.GetExpensesByCategory | src/data/mockDeputies.ts:633-647 | the record loop, `Object.entries` and the sort give the groups by category sorted by value, largest first |
| MockDeputies.CategoryRecord | src/data/mockDeputies.ts:634-642 | after the `forEach` the record's keys are the categories in first-seen order and each holds its category's total |
| MockDeputies.RecordAddTo | src/data/mockDeputies.ts:637-638 | adding to a non-zero total keeps the record equal to the category totals so far |
| MockDeputies.RecordSet | src/data/mockDeputies.ts:639-641 | storing the expense's value for a new category, or one whose total is 0, keeps the record equal to the category totals so far, a new category becoming the last key |
| MockDeputies.RecordUpdate | src/data/mockDeputies.ts:637-641 | storing a category's new total keeps the record equal to the category totals |
| MockDeputies.Entries | src/data/mockDeputies.ts:644-645 | the entries list the record's keys in insertion order, each with its value |
| MockDeputies.EntriesAreGroups | src/data/mockDeputies.ts:644-645 | a record holding every category's total, keyed in first-seen order, lists exactly the groups |
| MockDeputies.CategoryTotal | src/data/mockDeputies.ts:633-647 | the category summary preserves the grand total |
| MockDeputies.GetExpensesByMonth | src/data/mockDeputies.ts:649-659 | always twelve entries, Jan to Dez |
| MockDeputies.ExpenseLandsInItsMonth | src/data/mockDeputies.ts:653-655 | an expense adds its valor to the entry of month `mes` of its year, and to no other entry |
| MockDeputies.MonthsCoverYear | src/data/mockDeputies.ts:649-659 | the twelve entries add up to the year's expenses in months 1 to 12 |
| MockDeputies.OtherYearIgnored | src/data/mockDeputies.ts:654 | an expense from another year changes no entry |
| ExpenseChart.Find | src/components/charts/ExpenseChart.tsx:14 | `find` returns the first group with that category, or none |
| ExpenseChart.FoundOrNew | src/components/charts/ExpenseChart.tsx:14-22 | adding to the found group, or pushing a new one, is one grouping step |
| ExpenseChart.Accumulate | src/components/charts/ExpenseChart.tsx:13-24 | the `reduce` callback performs one grouping step |
| ExpenseChart.GroupExpenses | src/components/charts/ExpenseChart.tsx:13-24 | the `reduce` yields the groups by category, in order of first appearance |
| ExpenseChart.TopCategories | src/components/charts/ExpenseChart.tsx:27-29 | at most eight bars, as many as there are groups up to eight |
| ExpenseChart.TopCategoriesSorted | src/components/charts/ExpenseChart.tsx:27-29 | the bars are sorted by value, largest first, and are drawn from the groups |
| ExpenseChart.TopCategoriesAreLargest | src/components/charts/ExpenseChart.tsx:27-29 | no group left out has a larger value than a bar shown |
| ExpenseChart.TopCategoriesOfExpenses | src/components/charts/ExpenseChart.tsx:13-29 | every bar is a category that occurs, with that category's total |
| ExpenseChart.FewCategoriesAllShown | src/components/charts/ExpenseChart.tsx:29 | with at most eight categories every one is shown |
| ExpenseChart.TruncateCategory | src/components/charts/ExpenseChart.tsx:40-43 | a name of at most maxLength characters is unchanged; a longer one becomes its first maxLength characters followed by `...` |
| ExpenseChart.TruncateBounded | src/components/charts/ExpenseChart.tsx:40-43 | a label is at most maxLength + 3 characters long and begins with the part of the name it shows |
| ExpenseChart.TickLabelAsWritten | src/components/charts/ExpenseChart.tsx:63 | the label drawn, with the tick index as the limit, is at most index + 3 long |
| ExpenseChart.FirstTickLosesName | src/components/charts/ExpenseChart.tsx:40-63 | the first tick of any named category is drawn as `...` |
| ExpenseChart.TickLabel | src/components/charts/ExpenseChart.tsx:40-43 | with the default limit 20, a short name is kept and no label exceeds 23 characters |
| ExpenseChart.TickLabelPositionIndependent | src/components/charts/ExpenseChart.tsx:40-63 | a name of at most 20 characters is always shown whole by the corrected label, while the as-written label shows it whole iff the tick index reaches its length |
| ExpenseChart.AxisLabels | src/components/charts/ExpenseChart.tsx:58-64 | one label per bar, each the corrected label of its category |
| PieChart.ChartData | src/components/charts/ExpensesPieChart.tsx:45-50 | at most seven slices; the first min(6, n) are the data's first entries, unchanged; `Outros` is appended iff the rest adds up to more than 0, with that sum |
| PieChart.FewEntriesUnchanged | src/components/charts/ExpensesPieChart.tsx:45-50 | six entries or fewer are charted as they are |
| PieChart.TotalAt | src/components/charts/ExpensesPieChart.tsx:45-46 | the total is that of the first n entries plus that of the rest |
| PieChart.ChartTotal | src/components/charts/ExpensesPieChart.tsx:45-50 | the chart adds up to the first six entries plus the `Outros` slice when it is drawn |
| PieChart.ChartKeepsTotal | src/components/charts/ExpensesPieChart.tsx:45-50 | with non-negative values the pie's total equals the data's total |
| SearchPage.Stage | src/components/deputies/SearchPageComponent.tsx:65-117 | each filter that is set narrows the previous result to the path's next condition; an unset one leaves it as it is |
| SearchPage.ApiStages | src/components/deputies/SearchPageComponent.tsx:65-79 | the API path's two conditions together are its predicate |
| SearchPage.FallbackStages | src/components/deputies/SearchPageComponent.tsx:97-117 | the fallback path's four conditions together are its predicate |
| SearchPage.ApiFilter | src/components/deputies/SearchPageComponent.tsx:65-79 | keeps, in order, the deputies whose lower-cased nome, partido or uf contains the lower-cased query (when there is one) and whose situacao equals the status filter (when set) |
| SearchPage.FallbackFilter | src/components/deputies/SearchPageComponent.tsx:97-117 | keeps, in order, the deputies matching the same query and equal to each of the party, state and status filters that is set |
| SearchPage.FallbackNarrower | src/components/deputies/SearchPageComponent.tsx:65-117 | on the same list the fallback keeps no deputy the API path would drop |
| SearchPage.FiltersKeepOrder | src/components/deputies/SearchPageComponent.tsx:65-117 | both paths return order-preserving sub-lists |
| SearchPage.TotalPages | src/components/deputies/SearchPageComponent.tsx:84-123 | the page count is ceil(totalItems / 12): enough pages for every item, and no empty last page |
| SearchPage.PageItems | src/components/deputies/SearchPageComponent.tsx:184-188 | at most 12 items; on a page that starts within the list, the items from (p-1)*12 to p*12, clipped to the list |
| SearchPage.PagesCoverList | src/components/deputies/SearchPageComponent.tsx:184-188 | reading the pages in turn gives back the list, so every item is on exactly one page |
| SearchPage.LastPage | src/components/deputies/SearchPageComponent.tsx:84-188 | the last page has items and the page after it has none |
| SearchPage.DisplayedRange | src/components/deputies/SearchPageComponent.tsx:251-252 | the first number shown follows the `(p-1)*12` items of earlier pages; the last is the minimum of `p*12` and the total |
| SearchPage.DisplayedRangeCountsItems | src/components/deputies/SearchPageComponent.tsx:251-252 | on a page that exists, `(p-1)*12+1` to `min(p*12, totalItems)` lies within the list and counts exactly the items shown |
| SearchPage.PageWindow | src/components/deputies/SearchPageComponent.tsx:332-342 | min(5, totalPages) consecutive ascending page numbers |
| SearchPage.PageWindowInRange | src/components/deputies/SearchPageComponent.tsx:332-342 | when the current page exists, every button is a page that exists and one of them is the current page |
| SearchPage.SearchPageState.constructor | src/components/deputies/SearchPageComponent.tsx:42-48 | the page starts empty, on page 1 of 1, with no items and not loading |
| SearchPage.SearchPageState.FetchDeputies | src/components/deputies/SearchPageComponent.tsx:51-134 | with an answer, all deputies are the answer and the list is its API-path filtering; on failure, all deputies are the sample list and the list is its fallback filtering; then totalItems, totalPages and the requested page are set and loading ends |
| SearchPage.SearchPageState.ChangePage | src/components/deputies/SearchPageComponent.tsx:177-181 | the page changes to newPage iff 1 <= newPage <= totalPages; nothing else changes |
| SearchPage.SearchPageState.CurrentPageItems | src/components/deputies/SearchPageComponent.tsx:184-188 | the current page shows at most 12 items |
| SearchPage.ChangeKeepsPageValid | src/components/deputies/SearchPageComponent.tsx:177-181 | page changes keep the state on an existing page, or on page 1 |
| ProposicoesRoute.FirstValue | src/app/api/proposicoes/route.ts:18 | `searchParams.get` gives the value of the first pair with that key |
| ProposicoesRoute.UpstreamUrl | src/app/api/proposicoes/route.ts:22 | the upstream URL is `<API base>/proposicoes?` followed by the forwarded query; the `?` is there even when nothing is forwarded |
| ProposicoesRoute.RewriteParams | src/app/api/proposicoes/route.ts:9-19 | the loop and the append build the forwarded query |
| ProposicoesRoute.NoOrdering | src/app/api/proposicoes/route.ts:11 | ordenarPor is never forwarded |
| ProposicoesRoute.AuthorOnceLast | src/app/api/proposicoes/route.ts:17-19 | idDeputadoAutor, when present, is forwarded exactly once, last, with its first value; when absent it is not added |
| ProposicoesRoute.OthersKept | src/app/api/proposicoes/route.ts:10-14 | every other pair is forwarded, in its original order, ahead of the author |
| ProposicoesRoute.Route | src/app/api/proposicoes/route.ts:21-52 | an ok answer is returned as 200 with its body and the CORS headers; a non-ok answer or any thrown failure yields status 500 with body `{error: ...}` |
| ProposicoesRoute.RouteStatus | src/app/api/proposicoes/route.ts:33-51 | the route answers 200 or 500, and 500 exactly when the upstream request did not succeed |

## Left out

- `fetch`, the `AbortController` and its `setTimeout` (src/services/api-client.ts:97-111) are outside the model. Their outcome is the parameter `outcome`, and `Date.now()` is the parameter `now` (`storedAt` for the store after the fetch). The `setInterval` sweep (src/services/api-client.ts:195-199) is a timer; the sweep it runs is `HttpClient.CleanupCache`.
- `HttpClient.Request` runs as one step. Two requests for the same key that interleave between the cache read (src/services/api-client.ts:91) and the store (src/services/api-client.ts:126) are not modelled.
- The cache durations each service passes to `get` (5, 10 and 3 minutes) are not modelled: each service receives what `get` produced for it.
- `HttpClient.post` is not modelled. It is a thin wrapper over `request` with caching off, and `ApiClient.UncachedRequest` states that case.
- `response.json()` failing on a non-JSON body is not modelled. The parsed body is part of the outcome.
- `JSON.stringify` is modelled only for the options object `get` builds. `URLSearchParams` percent-encoding (section 5.2 of the WHATWG URL Standard) is not modelled: keys and values are joined as they are.
- `toLowerCase`/`toUpperCase` map ASCII letters and the Latin-1 letters U+00C0–U+00DE to U+00E0–U+00FE and back (not × and ÷). `ß`, `ÿ`, `µ` and characters outside Latin-1 are left unchanged.
- `formatDate`'s last branch calls `new Date(...).toLocaleDateString('pt-BR')`. That is a locale-dependent foreign call, passed in as `localeDate`. The `catch` around it is not reachable in the model.
- `parseInt` is modelled as leading white space, an optional sign and a run of decimal digits, giving `NotANumber` when there are none. Other radixes and partial numeric forms are not modelled.
- `getDeputyExpenses` maps records inline rather than through `mapCamaraDespesaToLocal`; on integer fields the two agree. Its `Number(...)` coercions are not modelled: `mes`, `ano` and `valor` arrive as integers.
- The deputy detail proxy (src/app/api/deputados/[id]/route.ts) forwards no query parameters, so the year and paging of `ExpensesQuery` never reach the upstream API; the proxy itself is not part of this model.
- Money is an integer. Floating-point sums and the `Intl.NumberFormat`/`toFixed` currency and axis formatting of the charts are not modelled.
- `searchDeputies` in src/services/camara-api.ts assumes `dados` is present, as the code does. A missing `dados` there throws a `TypeError` inside the `try`; the model has no such case.
- `getExpensesByCategory` keeps its sums in a `Record`. The model uses a map plus the list of keys in insertion order. JavaScript lists integer-like keys first and lets prototype keys such as `constructor` read as truthy; neither is modelled.
- `sort` works in place. `Expenses.SortDesc` models it as a function: an insertion sort, largest first.
- Expenses.SortDesc: its contract states sorted and a permutation, not the order among equal values (which decides ties at the top-8 and top-6 cut-offs).
- The `reduce` in ExpenseChart.tsx mutates the found object (`existing.value +=`). The model replaces that element of the group sequence instead; nothing else aliases those objects.
- The sample deputy table and the random generators in src/data/mockDeputies.ts are nondeterministic data. The deputy list is a parameter.
- In `mapCamaraDeputyToLocal` the record field is spelled `legislature`. The local record calls it `legislatura`.
- The unused election condition in `mapCamaraHistoricoToLocal` is not modelled.
- `ApiResponses.MapCamaraHistoricoToLocal`: its own contract states only the undated year. The dated and undated text is stated by `ApiResponses.HistoricoDated`, `ApiResponses.HistoricoUndated`, `ApiResponses.HistoricoRole` and `ApiResponses.HistoricoDescription`, which require texts that do not end in white space, because `trim` would otherwise eat into them.
- `getProposicaoDetail`, `getDeputyVotes`, `healthCheck` and `clearCache` in src/services/camara-api.ts are one-line wrappers over `get` and are not modelled. The pass-through route src/app/api/deputados/route.ts is not part of this model.
- The proxy route's fixed request headers, its `force-cache`/`revalidate` options and the exact CORS header values are not modelled. `cors` records only whether they are set.
- Search-page URL updates (`updateSearchQuery`, `handleFilterChange`, `clearFilters`), the effects that start a search, and all React rendering are UI work and are not modelled. The search page's request to the API is the parameter `apiResult`.
- `SearchPage.SearchPageState.CurrentPageItems`: its contract bounds the page at 12 items. The exact slice is stated by `SearchPage.PageItems`, which it returns.

## Findings

| source | as written | input that shows it | evidently intended | confidence | as-written member | corrected member |
|---|---|---|---|---|---|---|
| src/components/charts/ExpenseChart.tsx:63 | `tickFormatter={truncateCategory}` makes the axis call `truncateCategory(value, index)`, so the tick's index replaces the default `maxLength` of 20 | any category with a non-empty name on the first bar (index 0) is drawn as `...`; at index 3, `Combustíveis` becomes `Com...` | every tick truncated at the default 20 characters, independent of its position | medium; not executed, and it relies on the chart library passing the tick index as the formatter's second argument | ExpenseChart.TickLabelAsWritten, ExpenseChart.FirstTickLosesName | ExpenseChart.TickLabel, ExpenseChart.TickLabelPositionIndependent |
| src/services/camara-api.ts:153 | `getDeputyExpenses` requests `BASE_PATHS.DEPUTADO_DETAIL/{id}`, the endpoint `getDeputyById` reads one deputy record from (lines 64-66), then calls `.map` on its `dados` | any successful answer of that endpoint, e.g. `{dados: {id: 1, ...}}`: `(response.dados \|\| []).map` throws a `TypeError`, rethrown as `Falha ao buscar despesas: ` followed by the `TypeError` message; the text modelled is V8's for the unminified code, and a bundler or another engine words it differently | the deputy's list of expense records, each normalised | medium; not executed; it relies on the detail endpoint answering with a single record, as `getDeputyById` assumes; only the prefix and the `TypeError` are certain, not the message text | CamaraApi.GetDeputyExpensesAsWritten, CamaraApi.ExpensesFailOnDetailAnswer | CamaraApi.GetDeputyExpenses |

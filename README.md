# Region search and document wizard controllers

A Dafny model of two form controllers of the FedConnect front end, separated
from their React rendering:

- **ComercialRegiao** (`comercial_regiao.dfy`): the "Buscar por Região" screen.
  A form with `uf`, `municipio` and `bairro`; a submit handler that checks the
  two required fields, calls the search service, and runs the
  `loading` / `erro` / `resultados` / `hasSearched` state machine, with a
  fallback to the empty list when the response has no `resultados` array; and
  the "Exportar para Excel" action, which turns the result list into one
  spreadsheet row per place, with `'N/A'` for a missing name, phone or site.
  The component is the class `ComercialRegiao.Controller`. The service is an
  outcome argument of `HandleSubmit` (`Resolved(response)` or `Rejected`), and
  `HandleSubmit` returns the query it would send, `None` when the guard stops
  it first. `ExportarExcel` returns the workbook value (file name, sheet name,
  rows) handed to the spreadsheet writer, or nothing when there are no results.
- **PdfAutomation** (`pdf_automation.dfy`): the "Automação de PDFs" wizard.
  An operation (`separar`, `renomear`, `ambos`), a model file, an input file
  and a rename rule. Every edit clears the feedback, and an operation change
  also clears the files and the rule. Submit runs the operation's checks in a
  fixed order, each with its own message. A valid submit starts loading, and
  a separate completion event (`Complete`, the timer firing) sets the success
  message and the download link. The class `PdfAutomation.Controller` keeps
  the invariant `Valid()`. It ties `isLoading` to a scheduled completion. It
  rules out feedback while loading and an error shown beside a success. It
  keeps the success message and the download link together.
- **JsString** (`js_string.dfy`): JavaScript's `String.prototype.trim`, used
  by the rename-rule check, with its exact white-space set (section 22.1.3.32
  of ECMA-262). It proves that a string trims to `""` exactly when all of it is
  white space.
- **Wrappers** (`wrappers.dfy`): the `Option` type for `null` / `undefined`
  values and for an empty file selection.

Each handler's postcondition states the handler's whole new state. Its
`modifies` clause lists only the fields it may change, so "nothing else
changes" is part of its contract.

Three behaviours of the code worth noting:
- On a service failure `hasSearched` is not set. A first search that fails
  therefore shows neither the list nor the "Nenhum resultado" message
  (`FirstSearchRejected`).
- The export columns are Nome, Endereço, Telefone, Site and Status. Telefone
  and Site fall back to `'N/A'` for any falsy value, the empty string included.
  Endereço and Status are copied as they are, missing values included.
- The rename rule counts as blank when it is empty after JavaScript's `trim`.

## Model

| member | source | states |
|---|---|---|
| `JsString.TrimStart` | src/components/Operacional/PdfAutomation.jsx:61 | the result is a suffix of the input, everything dropped is white space, and it does not start with white space |
| `JsString.TrimEnd` | src/components/Operacional/PdfAutomation.jsx:76 | the result is a prefix of the input, everything dropped is white space, and it does not end with white space |
| `JsString.Trim` | src/components/Operacional/PdfAutomation.jsx:61 | `trim()` returns the contiguous slice after the leading white space, with only white space around it and none at either of its ends |
| `JsString.TrimEmptyIff` | src/components/Operacional/PdfAutomation.jsx:61-64 | a rule trims to `""` if and only if every code point of it is white space |
| `JsString.TrimIdempotent` | src/components/Operacional/PdfAutomation.jsx:76-79 | trimming a trimmed rule changes nothing |
| `ComercialRegiao.WithField` | src/components/Consultas/ComercialRegiao.jsx:28-31 | `{ ...prev, [name]: value }` sets the named field to the value and keeps the other two |
| `ComercialRegiao.ResultsOf` | src/components/Consultas/ComercialRegiao.jsx:50-54 | a response whose `resultados` is an array yields that array; a `null` response or a non-array property yields the empty list |
| `ComercialRegiao.OrNotAvailable` | src/components/Consultas/ComercialRegiao.jsx:73-74 | the falsy fallback to `'N/A'` is never blank, keeps every truthy value, and is otherwise `'N/A'` |
| `ComercialRegiao.RowOf` | src/components/Consultas/ComercialRegiao.jsx:70-76 | Nome is `displayName.text`, or `'N/A'` when `displayName` is missing; Telefone and Site are the phone and the site with the falsy fallback to `'N/A'`, so never blank; Endereço and Status are copied unchanged; Nome reads `'N/A'` exactly when `displayName` is missing or its text is `'N/A'` |
| `ComercialRegiao.ExportRows` | src/components/Consultas/ComercialRegiao.jsx:70-76 | exactly one row per result, in the same order, each the row of its own result |
| `ComercialRegiao.ExportRowsAppend` | src/components/Consultas/ComercialRegiao.jsx:70 | the row mapping distributes over concatenation of result lists |
| `ComercialRegiao.RowOfAllMissing` | src/components/Consultas/ComercialRegiao.jsx:71-74 | a place without name, phone and site gets `'N/A'` in Nome, Telefone and Site |
| `ComercialRegiao.RowOfAllPresent` | src/components/Consultas/ComercialRegiao.jsx:70-76 | a place with all five fields present, none reading `'N/A'`, gets a row with no `'N/A'` cell |
| `ComercialRegiao.TelefoneNotAvailableIff` | src/components/Consultas/ComercialRegiao.jsx:73 | the Telefone cell reads `'N/A'` if and only if the phone is falsy or is itself `'N/A'` |
| `ComercialRegiao.SiteNotAvailableIff` | src/components/Consultas/ComercialRegiao.jsx:74 | the Site cell reads `'N/A'` if and only if the site is falsy or is itself `'N/A'` |
| `ComercialRegiao.RequiredFieldsFilled` | src/components/Consultas/ComercialRegiao.jsx:38 | the guard fails exactly when `uf` or `municipio` is empty |
| `ComercialRegiao.RequiredFieldsIgnoreBairro` | src/components/Consultas/ComercialRegiao.jsx:38 | the value of `bairro` never changes whether the guard lets a submit through |
| `ComercialRegiao.ResultsListShown` | src/components/Consultas/ComercialRegiao.jsx:110 | the result list (with its export button) is rendered exactly when the export would yield rows |
| `ComercialRegiao.NoResultsShown` | src/components/Consultas/ComercialRegiao.jsx:144 | the "Nenhum resultado" message is shown only when the list (line 110) is not |
| `ComercialRegiao.Controller.constructor` | src/components/Consultas/ComercialRegiao.jsx:8-16 | the initial state: empty form, not loading, no error, no results, not searched; it satisfies the invariant |
| `ComercialRegiao.Controller.ScreenConsistent` | src/components/Consultas/ComercialRegiao.jsx:106-110 | in every state between events, the failure message never shows beside the result list, and a list on screen comes from a completed search |
| `ComercialRegiao.Controller.HandleChange` | src/components/Consultas/ComercialRegiao.jsx:28-31 | only the named form field changes, to the new value; the invariant is kept |
| `ComercialRegiao.Controller.HandleSubmit` | src/components/Consultas/ComercialRegiao.jsx:33-64 | with `uf` or `municipio` empty: the required-fields error, the service is not called, and results and `hasSearched` are unchanged. On success: no error, results from the response with the empty-list fallback, `hasSearched` set. On failure: the failure message, empty results, `hasSearched` unchanged. `loading` is false afterwards in every case, and the form is unchanged |
| `ComercialRegiao.Controller.ExportarExcel` | src/components/Consultas/ComercialRegiao.jsx:66-82 | nothing is exported exactly when there are no results; otherwise the workbook holds one row per result in order, under the sheet "Empresas" and the file "empresas-regiao.xlsx"; the state is unchanged |
| `ComercialRegiao.FirstSearchRejected` | src/components/Consultas/ComercialRegiao.jsx:57-60 | after a first search the service rejects, the error is the failure message and neither the list nor the no-results message is shown |
| `PdfAutomation.RuleBlank` | src/components/Operacional/PdfAutomation.jsx:61 | `!renameRule.trim()` holds exactly when every code point of the rule is white space |
| `PdfAutomation.SubmitError` | src/components/Operacional/PdfAutomation.jsx:44-80 | submit passes if and only if there is an input file and, for 'renomear' and 'ambos', also a model file and a non-blank rule; an error is one of the five messages |
| `PdfAutomation.SeparateChecksOnlyInput` | src/components/Operacional/PdfAutomation.jsx:47-50 | with 'separar' the outcome does not depend on the model file or the rule, and a missing input file gives 'Selecione os arquivos para separação.' |
| `PdfAutomation.RenameCheckOrder` | src/components/Operacional/PdfAutomation.jsx:52-80 | for 'renomear' and 'ambos': model file first, then input file (a different message for each operation), then the rule |
| `PdfAutomation.WhiteSpaceRuleRejected` | src/components/Operacional/PdfAutomation.jsx:61-64 | with both files chosen, a rule made only of white space gives 'Descreva a regra de renomeação.' |
| `PdfAutomation.NonBlankRuleAccepted` | src/components/Operacional/PdfAutomation.jsx:76-79 | with both files chosen, a rule holding any non-white-space code point passes |
| `PdfAutomation.ModelFieldVisible` | src/components/Operacional/PdfAutomation.jsx:171 | the model upload block is rendered exactly when the operation is not 'separar' |
| `PdfAutomation.InputFieldVisible` | src/components/Operacional/PdfAutomation.jsx:218 | for 'renomear' and 'ambos' the input upload block is rendered exactly when a model file is chosen; while it is hidden, the model block is shown and empty |
| `PdfAutomation.RuleFieldVisible` | src/components/Operacional/PdfAutomation.jsx:273 | the rule area is rendered only for 'renomear' and 'ambos' and only once an input file is chosen; never for 'separar' |
| `PdfAutomation.ErrorNamesVisibleField` | src/components/Operacional/PdfAutomation.jsx:171-273 | every submit error names an upload block or the rule area that is rendered at that moment (visibility conditions at lines 171, 218 and 273) |
| `PdfAutomation.Controller.constructor` | src/components/Operacional/PdfAutomation.jsx:6-13 | the initial state: 'separar', no files, empty rule, not loading, no feedback |
| `PdfAutomation.Controller.DownloadVisible` | src/components/Operacional/PdfAutomation.jsx:332 | in every state that keeps the invariant, the download button is rendered exactly when the success message is, and never while loading or beside an error |
| `PdfAutomation.Controller.ResetFeedback` | src/components/Operacional/PdfAutomation.jsx:15-19 | the error, the success message and the download link are cleared, and nothing else changes |
| `PdfAutomation.Controller.HandleModelChange` | src/components/Operacional/PdfAutomation.jsx:21-24 | the model file becomes the selection (none for an empty one) and the feedback is cleared; the operation, the input file and the rule are unchanged |
| `PdfAutomation.Controller.HandleInputChange` | src/components/Operacional/PdfAutomation.jsx:26-29 | the input file becomes the selection and the feedback is cleared; the operation, the model file and the rule are unchanged |
| `PdfAutomation.Controller.HandleOperationChange` | src/components/Operacional/PdfAutomation.jsx:31-37 | the new operation, with both files, the rule and all feedback cleared |
| `PdfAutomation.Controller.HandleRenameRuleChange` | src/components/Operacional/PdfAutomation.jsx:39-42 | the rule becomes the typed text and the feedback is cleared; the operation and the files are unchanged |
| `PdfAutomation.Controller.HandleSubmit` | src/components/Operacional/PdfAutomation.jsx:44-88 | feedback is cleared first; on a failing check the error is that check's message and loading does not start; otherwise loading starts and a completion is scheduled; the files, the rule and the operation never change |
| `PdfAutomation.Controller.Complete` | src/components/Operacional/PdfAutomation.jsx:83-87 | the completion ends loading, sets the fixed success message and `downloadUrl = 'mock-url'`, and the download button (line 332) shows |
| `PdfAutomation.CompletionAfterOperationChange` | src/components/Operacional/PdfAutomation.jsx:31-37 | an operation change made while loading wipes the files, and the completion still reports success |

## Left out

- JSX rendering, CSS classes, icons, emoji and step numbers. Only the visibility conditions are modelled: lines 110 and 144 of ComercialRegiao.jsx, and lines 171, 218, 273 and 332 of PdfAutomation.jsx.
- `ConsultaService.consultaRegiao`: a network client whose source is not part of this model. It is the `SearchOutcome` argument of `HandleSubmit`.
- The XLSX library calls (`json_to_sheet`, `book_new`, `book_append_sheet`, `writeFile`). The model stops at the `Workbook` value: rows, sheet name and file name.
- The scroll-into-view effect of ComercialRegiao.jsx and its 180 ms timer: presentation only.
- The 2000 ms delay of the wizard's completion. `Complete` is an explicit event with no timing.
- `handleDownload`: it only logs. All `console.log` / `console.error` calls are left out too.
- Browser file-input events. A selection is `Option<FileName>`: `None` for `files[0] || null` on an empty selection.
- ComercialRegiao.Controller.HandleSubmit: the `await` is not split into two events. The service outcome is supplied with the call. The intermediate state (`loading` true, error cleared) is reached inside the body. Edits made while the request is in flight are not modelled.
- ComercialRegiao.Controller.HandleChange: the field name is one of the three inputs the form renders. The value is any string: the `maxLength={2}` attribute on `uf` is enforced by the browser, not by the handler.
- PdfAutomation.Controller.HandleSubmit: requires `!isLoading`, because its only caller is the submit button, which is disabled while loading (line 316).
- The rendering of a result card at ComercialRegiao.jsx:120 reads `item.displayName.text` without the guard the export uses. It is rendering, not modelled.
- Operation values outside the three cards: `handleOperationChange` is only ever called with a card's value.
- Determinism of the row mapping holds by construction, because `ExportRows` is a function. `ExportarExcel` changes no state, so two exports of the same results give the same workbook.

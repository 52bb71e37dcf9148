/**
 * The region search screen: a three-field form, the submit state machine over
 * `loading`, `erro`, `resultados` and `hasSearched`, and the spreadsheet
 * export of the result list. The search service is an outcome passed to the
 * submit handler; the spreadsheet writer receives the workbook value built here.
 */
module ComercialRegiao {
  import opened Wrappers

  /** The `name` attribute of one of the three form inputs. */
  datatype Field = Uf | Municipio | Bairro

  datatype Form = Form(uf: string, municipio: string, bairro: string)

  /** The `displayName` object of a place; its `text` may be missing. */
  datatype LocalizedText = LocalizedText(text: Option<string>)

  /** One business record as the search service returns it; every field may be missing. */
  datatype Place = Place(
    displayName: Option<LocalizedText>,
    formattedAddress: Option<string>,
    nationalPhoneNumber: Option<string>,
    websiteUri: Option<string>,
    businessStatus: Option<string>)

  /** An object resolved by the service; `resultados` is `None` when that property is not an array. */
  datatype Response = Response(resultados: Option<seq<Place>>)

  /** How the awaited service call ends: it resolves (possibly with `null`), or it throws. */
  datatype SearchOutcome = Resolved(response: Option<Response>) | Rejected

  /** One spreadsheet row, columns Nome, Endereço, Telefone, Site, Status in that order. */
  datatype Row = Row(
    nome: Option<string>,
    endereco: Option<string>,
    telefone: string,
    site: string,
    status: Option<string>)

  /** What is handed to the spreadsheet writer: a one-sheet workbook and its file name. */
  datatype Workbook = Workbook(fileName: string, sheetName: string, rows: seq<Row>)

  const RequiredFieldsError := "UF e municipio são obrigatórios."
  const SearchFailedError := "Erro ao buscar empresas. Tente novamente."
  const NotAvailable := "N/A"
  const ExportFileName := "empresas-regiao.xlsx"
  const ExportSheetName := "Empresas"

  /** The submit guard: both `uf` and `municipio` are non-empty; `bairro` plays no part. */
  predicate RequiredFieldsFilled(f: Form)
    ensures !RequiredFieldsFilled(f) <==> f.uf == "" || f.municipio == ""
  {
    f.uf != "" && f.municipio != ""
  }

  /** Whatever `bairro` holds, it does not change whether the guard lets a submit through. */
  lemma RequiredFieldsIgnoreBairro(f: Form, bairro: string)
    ensures RequiredFieldsFilled(WithField(f, Bairro, bairro)) == RequiredFieldsFilled(f)
  {
  }

  /** The form with the input called `name` set to `value`. */
  function WithField(f: Form, name: Field, value: string): (g: Form)
    ensures name == Uf ==> g.uf == value && g.municipio == f.municipio && g.bairro == f.bairro
    ensures name == Municipio ==> g.municipio == value && g.uf == f.uf && g.bairro == f.bairro
    ensures name == Bairro ==> g.bairro == value && g.uf == f.uf && g.municipio == f.municipio
  {
    match name
    case Uf => f.(uf := value)
    case Municipio => f.(municipio := value)
    case Bairro => f.(bairro := value)
  }

  /**
   * The list a resolved response yields: its `resultados` when that is an
   * array, and the empty list for a `null` response or a non-array property.
   */
  function ResultsOf(response: Option<Response>): (ps: seq<Place>)
    ensures response.Some? && response.value.resultados.Some? ==> ps == response.value.resultados.value
    ensures response.None? || response.value.resultados.None? ==> ps == []
  {
    match response
    case Some(Response(Some(items))) => items
    case _ => []
  }

  /** JavaScript truthiness of an optional string: present and not empty. */
  predicate Truthy(v: Option<string>) {
    v.Some? && v.value != ""
  }

  /** `v || 'N/A'`: a cell that is never blank and keeps every truthy value. */
  function OrNotAvailable(v: Option<string>): (cell: string)
    ensures cell != ""
    ensures Truthy(v) ==> cell == v.value
    ensures cell == NotAvailable || (v.Some? && cell == v.value)
  {
    if Truthy(v) then v.value else NotAvailable
  }

  /** The spreadsheet row of one place. */
  function RowOf(p: Place): (r: Row)
    ensures r.endereco == p.formattedAddress && r.status == p.businessStatus
    ensures r.telefone != "" && r.site != ""
    ensures p.displayName.None? ==> r.nome == Some(NotAvailable)
    ensures p.displayName.Some? ==> r.nome == p.displayName.value.text
    ensures r.telefone == OrNotAvailable(p.nationalPhoneNumber) && r.site == OrNotAvailable(p.websiteUri)
    ensures r.nome == Some(NotAvailable) <==>
              p.displayName.None? || p.displayName.value.text == Some(NotAvailable)
  {
    Row(
      nome := if p.displayName.Some? then p.displayName.value.text else Some(NotAvailable),
      endereco := p.formattedAddress,
      telefone := OrNotAvailable(p.nationalPhoneNumber),
      site := OrNotAvailable(p.websiteUri),
      status := p.businessStatus)
  }

  /** `resultados.map(...)`: exactly one row per place, in the same order. */
  function ExportRows(ps: seq<Place>): (rows: seq<Row>)
    ensures |rows| == |ps|
    ensures forall i :: 0 <= i < |ps| ==> rows[i] == RowOf(ps[i])
  {
    if ps == [] then [] else [RowOf(ps[0])] + ExportRows(ps[1..])
  }

  /** Exporting a concatenation exports each part, one after the other. */
  lemma ExportRowsAppend(a: seq<Place>, b: seq<Place>)
    ensures ExportRows(a + b) == ExportRows(a) + ExportRows(b)
  {
  }

  /** A row has a cell reading `'N/A'`. */
  predicate HasNotAvailableCell(r: Row) {
    r.nome == Some(NotAvailable) || r.endereco == Some(NotAvailable) || r.telefone == NotAvailable
    || r.site == NotAvailable || r.status == Some(NotAvailable)
  }

  /** A place without name, phone and site gets `'N/A'` in each of those three columns. */
  lemma RowOfAllMissing(p: Place)
    requires p.displayName.None? && !Truthy(p.nationalPhoneNumber) && !Truthy(p.websiteUri)
    ensures RowOf(p).nome == Some(NotAvailable)
    ensures RowOf(p).telefone == NotAvailable && RowOf(p).site == NotAvailable
  {
  }

  /** A place whose five fields are all present and none of them is `'N/A'` gets no `'N/A'` cell. */
  lemma RowOfAllPresent(p: Place, name: string)
    requires p.displayName == Some(LocalizedText(Some(name))) && name != NotAvailable
    requires Truthy(p.nationalPhoneNumber) && p.nationalPhoneNumber.value != NotAvailable
    requires Truthy(p.websiteUri) && p.websiteUri.value != NotAvailable
    requires p.formattedAddress.Some? && p.formattedAddress.value != NotAvailable
    requires p.businessStatus.Some? && p.businessStatus.value != NotAvailable
    ensures !HasNotAvailableCell(RowOf(p))
  {
  }

  /** The Telefone cell reads `'N/A'` exactly when the phone is falsy or is itself `'N/A'`. */
  lemma TelefoneNotAvailableIff(p: Place)
    ensures RowOf(p).telefone == NotAvailable <==>
            !Truthy(p.nationalPhoneNumber) || p.nationalPhoneNumber.value == NotAvailable
  {
  }

  /** The Site cell reads `'N/A'` exactly when the site is falsy or is itself `'N/A'`. */
  lemma SiteNotAvailableIff(p: Place)
    ensures RowOf(p).site == NotAvailable <==>
            !Truthy(p.websiteUri) || p.websiteUri.value == NotAvailable
  {
  }

  /** The result list block is rendered; its export button then always yields rows. */
  predicate ResultsListShown(resultados: seq<Place>)
    ensures ResultsListShown(resultados) <==> ExportRows(resultados) != []
  {
    |resultados| > 0
  }

  /** The "Nenhum resultado" message is rendered; never together with the list. */
  predicate NoResultsShown(loading: bool, hasSearched: bool, resultados: seq<Place>)
    ensures NoResultsShown(loading, hasSearched, resultados) ==> !ResultsListShown(resultados)
  {
    !loading && hasSearched && |resultados| == 0
  }

  /** The region search component's state and its event handlers. */
  class Controller {
    var form: Form
    var loading: bool
    var erro: Option<string>
    var resultados: seq<Place>
    var hasSearched: bool

    /**
     * The state between two events: not loading, an error is one of the two
     * messages, a failed search left no results, and never having searched
     * successfully means there are no results.
     */
    ghost predicate Valid()
      reads this
    {
      !loading
      && (erro.Some? ==> erro.value == RequiredFieldsError || erro.value == SearchFailedError)
      && (erro == Some(SearchFailedError) ==> resultados == [])
      && (!hasSearched ==> resultados == [])
    }

    /**
     * What the invariant shows on screen: the failure message never appears
     * beside the result list, and a list on screen comes from a completed search.
     */
    lemma ScreenConsistent()
      requires Valid()
      ensures erro == Some(SearchFailedError) ==> !ResultsListShown(resultados)
      ensures ResultsListShown(resultados) ==> hasSearched
    {
    }

    constructor ()
      ensures Valid()
      ensures form == Form("", "", "") && !loading && erro == None && resultados == [] && !hasSearched
    {
      form := Form("", "", "");
      loading := false;
      erro := None;
      resultados := [];
      hasSearched := false;
    }

    /** `handleChange`: sets the named input; nothing else changes. */
    method HandleChange(name: Field, value: string)
      requires Valid()
      modifies this`form
      ensures Valid()
      ensures form == WithField(old(form), name, value)
    {
      form := WithField(form, name, value);
    }

    /**
     * `handleSubmit` with the service's outcome supplied. Returns the query it
     * sends to the service, `None` when the guard stops it before the call.
     */
    method HandleSubmit(outcome: SearchOutcome) returns (query: Option<Form>)
      requires Valid()
      modifies this`loading, this`erro, this`resultados, this`hasSearched
      ensures Valid()
      ensures !loading
      ensures query == (if RequiredFieldsFilled(form) then Some(form) else None)
      ensures !RequiredFieldsFilled(form) ==>
                erro == Some(RequiredFieldsError)
                && resultados == old(resultados) && hasSearched == old(hasSearched)
      ensures RequiredFieldsFilled(form) && outcome.Resolved? ==>
                erro == None && resultados == ResultsOf(outcome.response) && hasSearched
      ensures RequiredFieldsFilled(form) && outcome.Resolved? ==>
                (NoResultsShown(loading, hasSearched, resultados) <==> ResultsOf(outcome.response) == [])
      ensures RequiredFieldsFilled(form) && outcome.Rejected? ==>
                erro == Some(SearchFailedError) && resultados == [] && hasSearched == old(hasSearched)
    {
      loading := true;
      erro := None;

      if form.uf == "" || form.municipio == "" {
        erro := Some(RequiredFieldsError);
        loading := false;
        return None;
      }

      query := Some(form);
      match outcome {
        case Resolved(response) =>
          if response.Some? && response.value.resultados.Some? {
            resultados := response.value.resultados.value;
          } else {
            resultados := [];
          }
          hasSearched := true;
        case Rejected =>
          erro := Some(SearchFailedError);
          resultados := [];
      }
      loading := false;
    }

    /**
     * `exportarExcel`: nothing when there are no results, otherwise the
     * workbook of one row per result; it changes no state.
     */
    method ExportarExcel() returns (workbook: Option<Workbook>)
      ensures workbook.None? <==> resultados == []
      ensures workbook.Some? ==>
                workbook.value.fileName == ExportFileName && workbook.value.sheetName == ExportSheetName
      ensures workbook.Some? ==> |workbook.value.rows| == |resultados|
      ensures workbook.Some? ==> forall i :: 0 <= i < |resultados| ==> workbook.value.rows[i] == RowOf(resultados[i])
    {
      if |resultados| == 0 {
        return None;
      }
      var data := ExportRows(resultados);
      workbook := Some(Workbook(ExportFileName, ExportSheetName, data));
    }
  }

  /**
   * A first search that the service rejects leaves `hasSearched` false, so
   * the screen shows neither the list nor the no-results message, only the error.
   */
  method FirstSearchRejected() returns (erro: Option<string>, listShown: bool, noResultsShown: bool)
    ensures erro == Some(SearchFailedError)
    ensures !listShown && !noResultsShown
  {
    var c := new Controller();
    c.HandleChange(Uf, "SP");
    c.HandleChange(Municipio, "Campinas");
    var query := c.HandleSubmit(Rejected);
    assert query == Some(Form("SP", "Campinas", ""));
    erro := c.erro;
    listShown := ResultsListShown(c.resultados);
    noResultsShown := NoResultsShown(c.loading, c.hasSearched, c.resultados);
  }
}

/** The detail view (src/components/Modal.jsx): the taxpayer-ID display masks, the
    rejection-reason check and the lazy fetch of the producer's details. */
module Modal {
  import opened Builtins
  import opened Web
  import opened AdminService

  datatype Documento = Documento(documentType: string, downloadUrl: string)

  /** The producer detail record; every field may be missing. */
  datatype ProducerDetails = ProducerDetails(
    name: Option<string>, cpf: Option<string>, documentNumber: Option<string>,
    phone: Option<string>, email: Option<string>, powerPlantName: Option<string>,
    powerPlantCode: Option<string>, operationStart: Option<string>,
    documents: seq<Documento>)

  // ---------------------------------------------------------------- masks

  /** Dropping the non-digits of a digit group, a non-digit separator and a rest
      keeps the group and the rest's digits. */
  lemma DropSeparator(group: string, sep: char, rest: string)
    requires AllDigits(group) && !IsDigit(sep)
    ensures OnlyDigits(group + [sep] + rest) == group + OnlyDigits(rest)
  {
    OnlyDigitsAppend(group + [sep], rest);
    OnlyDigitsAppend(group, [sep]);
  }

  /** formatCPF applied to an 11-digit string: ddd.ddd.ddd-dd. */
  function FormatCpf(d: string): (r: string)
    requires |d| == 11 && AllDigits(d)
    ensures |r| == 14
    ensures r[3] == '.' && r[7] == '.' && r[11] == '-'
  {
    d[..3] + "." + d[3..6] + "." + d[6..9] + "-" + d[9..]
  }

  /** formatCNPJ applied to a 14-digit string: dd.ddd.ddd/dddd-dd. */
  function FormatCnpj(d: string): (r: string)
    requires |d| == 14 && AllDigits(d)
    ensures |r| == 18
    ensures r[2] == '.' && r[6] == '.' && r[10] == '/' && r[15] == '-'
  {
    d[..2] + "." + d[2..5] + "." + d[5..8] + "/" + d[8..12] + "-" + d[12..]
  }

  /** Stripping the non-digits of a masked CPF gives the 11 digits back. */
  lemma CpfRoundTrip(d: string)
    requires |d| == 11 && AllDigits(d)
    ensures OnlyDigits(FormatCpf(d)) == d
  {
    var a, b, c, e := d[..3], d[3..6], d[6..9], d[9..];
    assert FormatCpf(d) == a + "." + (b + "." + (c + "-" + e));
    DropSeparator(c, '-', e);
    DropSeparator(b, '.', c + "-" + e);
    DropSeparator(a, '.', b + "." + (c + "-" + e));
    assert a + (b + (c + e)) == d;
  }

  /** Stripping the non-digits of a masked CNPJ gives the 14 digits back. */
  lemma CnpjRoundTrip(d: string)
    requires |d| == 14 && AllDigits(d)
    ensures OnlyDigits(FormatCnpj(d)) == d
  {
    var a, b, c, e, f := d[..2], d[2..5], d[5..8], d[8..12], d[12..];
    assert FormatCnpj(d) == a + "." + (b + "." + (c + "/" + (e + "-" + f)));
    DropSeparator(e, '-', f);
    DropSeparator(c, '/', e + "-" + f);
    DropSeparator(b, '.', c + "/" + (e + "-" + f));
    DropSeparator(a, '.', b + "." + (c + "/" + (e + "-" + f)));
    assert a + (b + (c + (e + f))) == d;
  }

  // ---------------------------------------------------------------- document line

  /** `details?.cpf || details?.documentNumber || ''`. */
  function DocumentOf(d: ProducerDetails): (doc: string)
    ensures Truthy(d.cpf) ==> doc == d.cpf.value
    ensures !Truthy(d.cpf) && Truthy(d.documentNumber) ==> doc == d.documentNumber.value
    ensures !Truthy(d.cpf) && !Truthy(d.documentNumber) ==> doc == ""
  {
    if Truthy(d.cpf) then d.cpf.value else if Truthy(d.documentNumber) then d.documentNumber.value else ""
  }

  /** A labelled line of the information tab. */
  datatype Line = Line(caption: string, text: string)

  const NaoInformado := "Não informado"

  /** renderDocumento: classify the document by its digit count and mask it. */
  function RenderDocumento(d: ProducerDetails): (line: Line)
    ensures var digits := OnlyDigits(DocumentOf(d));
            && (line.caption == "CPF" <==> |digits| == 11)
            && (line.caption == "CNPJ" <==> |digits| == 14)
            && (line.caption == "Documento" <==> |digits| != 11 && |digits| != 14)
    // a masked number carries exactly the document's digits
    ensures line.caption == "CPF" ==> line.text == FormatCpf(OnlyDigits(DocumentOf(d)))
    ensures line.caption == "CNPJ" ==> line.text == FormatCnpj(OnlyDigits(DocumentOf(d)))
    ensures line.caption == "CPF" ==> |line.text| == 14 && OnlyDigits(line.text) == OnlyDigits(DocumentOf(d))
    ensures line.caption == "CNPJ" ==> |line.text| == 18 && OnlyDigits(line.text) == OnlyDigits(DocumentOf(d))
    // anything else is shown as it was stored
    ensures line.caption == "Documento" ==> line.text == if DocumentOf(d) == "" then NaoInformado else DocumentOf(d)
  {
    var doc := DocumentOf(d);
    var onlyNumbers := OnlyDigits(doc);
    if |onlyNumbers| == 11 then
      CpfRoundTrip(onlyNumbers);
      Line("CPF", FormatCpf(onlyNumbers))
    else if |onlyNumbers| == 14 then
      CnpjRoundTrip(onlyNumbers);
      Line("CNPJ", FormatCnpj(onlyNumbers))
    else
      Line("Documento", if doc == "" then NaoInformado else doc)
  }

  // ---------------------------------------------------------------- rejection

  const MotivoObrigatorio := "O motivo da rejeição é obrigatório."
  const FalhaDetalhes := "Não foi possível carregar os detalhes. Tente novamente."

  /** The reason handleRejeitar forwards, if it accepts the text: the trimmed text,
      when it has at least five characters. */
  function RejectionReason(observacao: string): (reason: Option<string>)
    ensures reason.Some? <==> |Trim(observacao)| >= 5
    ensures reason.Some? ==> reason.value == Trim(observacao)
    ensures reason.Some? ==> |reason.value| >= 5 && !IsWhiteSpace(reason.value[0]) && !IsWhiteSpace(reason.value[|reason.value| - 1])
  {
    var motivo := Trim(observacao);
    if |motivo| < 5 then None else Some(motivo)
  }

  /** The call handleRejeitar makes to the page's onRejeitar. */
  datatype Rejection = Rejection(userId: string, reason: string)

  /** The detail pane as rendered: loading flag, error text and details. */
  datatype Pane = Pane(isLoading: bool, error: string, details: Option<ProducerDetails>)

  /** The modal's state (the props isOpen and data are passed to its handlers). */
  class ModalView {
    const browser: Browser
    var observacao: string
    var erroRejeicao: Option<string>
    var details: Option<ProducerDetails>
    var isLoadingDetails: bool
    var errorDetails: string

    constructor (browser: Browser)
      ensures this.browser == browser
      ensures observacao == "" && erroRejeicao.None? && details.None? && !isLoadingDetails && errorDetails == ""
    {
      this.browser := browser;
      observacao := "";
      erroRejeicao := None;
      details := None;
      isLoadingDetails := false;
      errorDetails := "";
    }

    function CurrentPane(): Pane
      reads this
    {
      Pane(isLoadingDetails, errorDetails, details)
    }

    /** handleRejeitar (Modal.jsx:84-91): a short reason sets the error and calls
        nothing; otherwise onRejeitar gets the trimmed reason. */
    method HandleRejeitar(data: Proposta) returns (forwarded: Option<Rejection>)
      modifies this`erroRejeicao
      ensures forwarded.None? <==> RejectionReason(observacao).None?
      ensures forwarded.None? ==> erroRejeicao == Some(MotivoObrigatorio)
      ensures forwarded.Some? ==> forwarded.value == Rejection(data.userId, RejectionReason(observacao).value)
                                  && erroRejeicao == old(erroRejeicao)
    {
      var motivo := RejectionReason(observacao);
      if motivo.None? {
        erroRejeicao := Some(MotivoObrigatorio);
        return None;
      }
      forwarded := Some(Rejection(data.userId, motivo.value));
    }

    /** fetchDetails (Modal.jsx:23-46), run when the modal is open. `whileLoading`
        is the pane shown while the request is in flight (None: no fetch). */
    method FetchDetails(isOpen: bool, data: Option<Proposta>, net: Exchanges<ProducerDetails>)
      returns (whileLoading: Option<Pane>, sent: seq<Request>)
      modifies this`details, this`isLoadingDetails, this`errorDetails, browser
      ensures !isOpen || data.None? || data.value.userId == "" ==>
                whileLoading.None? && sent == [] && CurrentPane() == old(CurrentPane())
                && browser.store == old(browser.store) && browser.location == old(browser.location)
      ensures isOpen && data.Some? && data.value.userId != "" ==>
                var c := AuthExchange(old(browser.store), DetailsCall(data.value.userId), net);
                var r := ReadJson(c.outcome);
                && whileLoading == Some(Pane(true, "", None))
                && sent == c.sent && browser.store == c.store && browser.location == Landing(old(browser.location), c)
                && !isLoadingDetails
                && (r.Ok? ==> details == Some(r.value) && errorDetails == "")
                && (r.Err? ==> details.None? && errorDetails == FalhaDetalhes)
    {
      if !isOpen || data.None? || data.value.userId == "" {
        return None, [];
      }
      isLoadingDetails := true;
      errorDetails := "";
      details := None;
      whileLoading := Some(CurrentPane());
      var r;
      r, sent := GetProducerDetails(browser, data.value.userId, net);
      if r.Ok? {
        details := Some(r.value);
      } else {
        errorDetails := FalhaDetalhes;
      }
      isLoadingDetails := false;
    }
  }
}

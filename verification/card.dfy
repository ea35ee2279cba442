/** The proposal card (src/components/Card.jsx): which unit it shows, its type
    label, and the actions its menu forwards. */
module Card {
  import opened Web
  import opened AdminService
  import Principal

  /** Index of the first unit whose status is 'PENDING' (Array.prototype.find). */
  function FirstPending(us: seq<Unidade>): (k: Option<nat>)
    ensures k.Some? ==> k.value < |us| && us[k.value].status == "PENDING"
    ensures k.Some? ==> forall j :: 0 <= j < k.value ==> us[j].status != "PENDING"
    ensures k.None? <==> forall j :: 0 <= j < |us| ==> us[j].status != "PENDING"
  {
    if us == [] then None
    else if us[0].status == "PENDING" then Some(0)
    else match FirstPending(us[1..])
         case None => None
         case Some(k) => Some(k + 1)
  }

  /** `unidadeEmAnalise`: the first PENDING unit, else the first unit; none when
      `unidades` is not an array or is empty. */
  function UnidadeEmAnalise(unidades: Option<seq<Unidade>>): (u: Option<Unidade>)
    ensures u.None? <==> unidades.None? || unidades.value == []
    ensures u.Some? ==> u.value in unidades.value
    ensures unidades.Some? && (exists j :: 0 <= j < |unidades.value| && unidades.value[j].status == "PENDING") ==>
              u.Some? && u.value.status == "PENDING"
              && exists k :: 0 <= k < |unidades.value| && unidades.value[k] == u.value
                   && forall j :: 0 <= j < k ==> unidades.value[j].status != "PENDING"
    ensures unidades.Some? && unidades.value != [] && (forall j :: 0 <= j < |unidades.value| ==> unidades.value[j].status != "PENDING") ==>
              u == Some(unidades.value[0])
  {
    match unidades
    case None => None
    case Some(us) =>
      if us == [] then None
      else match FirstPending(us)
           case Some(k) => Some(us[k])
           case None => Some(us[0])
  }

  /** The "Unidade Produtora" line: the selected unit's name, or 'N/D' when none. */
  function NomeUnidade(unidades: Option<seq<Unidade>>): (s: string)
    ensures UnidadeEmAnalise(unidades).None? ==> s == "N/D"
    ensures UnidadeEmAnalise(unidades).Some? ==> s == UnidadeEmAnalise(unidades).value.nome
    ensures s == "N/D" || exists j :: 0 <= j < |unidades.value| && unidades.value[j].nome == s
  {
    match UnidadeEmAnalise(unidades)
    case None => "N/D"
    case Some(u) => u.nome
  }

  /** The type label at the top of the card. */
  function TipoLabel(tipo: string): (shown: string)
    ensures shown == "Nova Unidade" <==> tipo == "nova_unidade"
    ensures shown == "Novo Produtor" <==> tipo != "nova_unidade"
  {
    if tipo == "nova_unidade" then "Nova Unidade" else "Novo Produtor"
  }

  datatype MenuItem = ApproveItem | RejectItem(reason: string) | ReopenItem

  /** The menu closures: each calls one of the page's callbacks with `dados.userId`
      unchanged, reject with the given reason, so the page then updates that user
      to the item's status. The card only ever closes its menu (menuAberto is never
      set to true), so no path reaches these closures. */
  function MenuAction(dados: Proposta, item: MenuItem): (cb: Principal.Callback)
    ensures cb.userId == dados.userId
    ensures item.ApproveItem? <==> cb.OnAprovar?
    ensures item.ReopenItem? <==> cb.OnReabrir?
    ensures item.RejectItem? <==> cb.OnRejeitar?
    ensures item.RejectItem? ==> cb.reason == item.reason
    ensures Principal.UpdateFor(cb).userId == dados.userId
    ensures Principal.UpdateFor(cb).target == match item
                                                case ApproveItem => Approved
                                                case RejectItem(_) => Rejected
                                                case ReopenItem => Pending
  {
    match item
    case ApproveItem => Principal.OnAprovar(dados.userId)
    case RejectItem(reason) => Principal.OnRejeitar(dados.userId, reason)
    case ReopenItem => Principal.OnReabrir(dados.userId)
  }
}

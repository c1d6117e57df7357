/**
 * The ledger as the component holds it: one mutable field `contas`, replaced
 * by each handler with a newly built list. The handlers return the text of
 * the success notification they raise, or `None` when validation fails and
 * nothing happens.
 */
module Store {
  import opened Wrappers
  import opened Ledger
  import opened Handlers

  class App {
    var contas: seq<Conta>

    /** The component starts from the two seed accounts. */
    constructor ()
      ensures contas == Seed()
    {
      contas := Seed();
    }

    method HandleAddConta(pessoa: string, saldoInicial: Option<real>, novoId: string, agora: string)
      returns (toast: Option<string>)
      modifies this
      ensures contas == AddConta(old(contas), pessoa, saldoInicial, novoId, agora)
      ensures toast == if pessoa == "" then None else Some("Conta adicionada!")
    {
      if pessoa == "" {
        toast := None;
        return;
      }
      contas := AddConta(contas, pessoa, saldoInicial, novoId, agora);
      toast := Some("Conta adicionada!");
    }

    method HandleAddMovimentacao(contaId: string, motivo: string, valor: Option<real>, tipo: Tipo,
                                 novoId: string, agora: string)
      returns (toast: Option<string>)
      modifies this
      ensures contas == AddMovimentacao(old(contas), contaId, motivo, valor, tipo, novoId, agora)
      ensures toast == if motivo == "" || valor.None? then None
                       else Some(if tipo == Adicionar then "Valor adicionado!" else "Valor descontado!")
    {
      if motivo == "" || valor.None? {
        toast := None;
        return;
      }
      contas := AddMovimentacao(contas, contaId, motivo, valor, tipo, novoId, agora);
      toast := Some(if tipo == Adicionar then "Valor adicionado!" else "Valor descontado!");
    }

    method HandleDeleteMovimentacao(contaId: string, movId: string) returns (toast: string)
      modifies this
      ensures contas == DeleteMovimentacao(old(contas), contaId, movId)
      ensures toast == "Movimentação removida!"
    {
      contas := DeleteMovimentacao(contas, contaId, movId);
      toast := "Movimentação removida!";
    }

    method HandleDeleteConta(id: string) returns (toast: string)
      modifies this
      ensures contas == DeleteConta(old(contas), id)
      ensures toast == "Conta removida!"
    {
      contas := DeleteConta(contas, id);
      toast := "Conta removida!";
    }
  }
}

/**
 * The four state transitions of the ledger, as functions from the old list
 * of accounts to the new one. Each source handler builds a new list by
 * prepending, by `map`-and-replace or by `filter`; invalid input (an empty
 * text field) returns the old list unchanged. Fresh ids and timestamps are
 * parameters.
 */
module Handlers {
  import opened Wrappers
  import opened Seqs
  import opened Ledger

  /** No two accounts share an id (the source relies on clock-based ids for this). */
  ghost predicate IdsUnicos(cs: seq<Conta>) {
    forall i, j :: 0 <= i < j < |cs| ==> cs[i].id != cs[j].id
  }

  /** No two movements of one account share an id. */
  ghost predicate MovIdsUnicos(ms: seq<Movimentacao>) {
    forall i, j :: 0 <= i < j < |ms| ==> ms[i].id != ms[j].id
  }

  /** The list `cs` with every account whose id is `contaId` replaced by its image under `f`. */
  function MapConta(cs: seq<Conta>, contaId: string, f: Conta -> Conta): (r: seq<Conta>)
    ensures |r| == |cs|
    ensures forall i :: 0 <= i < |cs| ==> r[i] == if cs[i].id == contaId then f(cs[i]) else cs[i]
    decreases |cs|
  {
    if cs == [] then []
    else [if cs[0].id == contaId then f(cs[0]) else cs[0]] + MapConta(cs[1..], contaId, f)
  }

  /** Creating an account: with a name, a new account with no movements goes in front. */
  function AddConta(cs: seq<Conta>, pessoa: string, saldoInicial: Option<real>, id: string, data: string): (r: seq<Conta>)
    ensures pessoa == "" ==> r == cs
    ensures pessoa != "" ==> |r| == |cs| + 1 && r[1..] == cs
    ensures pessoa != "" ==> r[0].id == id && r[0].pessoa == pessoa && r[0].data == data
    ensures pessoa != "" ==> r[0].movimentacoes == [] && CalcularSaldo(r[0]) == r[0].saldoInicial
    ensures pessoa != "" && saldoInicial.None? ==> r[0].saldoInicial == 0.0
    ensures pessoa != "" && saldoInicial.Some? ==> r[0].saldoInicial == saldoInicial.value
  {
    if pessoa == "" then cs
    else [Conta(id, pessoa, saldoInicial.GetOr(0.0), [], data)] + cs
  }

  /** Recording a movement: with a reason and an amount, it goes in front of the movements of every account with id `contaId`. */
  function AddMovimentacao(cs: seq<Conta>, contaId: string, motivo: string, valor: Option<real>, tipo: Tipo,
                           id: string, data: string): (r: seq<Conta>)
    ensures motivo == "" || valor.None? ==> r == cs
    ensures |r| == |cs|
    ensures forall i :: 0 <= i < |cs| ==> r[i].id == cs[i].id
    ensures forall i :: 0 <= i < |cs| && cs[i].id != contaId ==> r[i] == cs[i]
    ensures motivo != "" && valor.Some? ==>
      forall i :: 0 <= i < |cs| && cs[i].id == contaId ==>
        r[i] == cs[i].(movimentacoes := [Movimentacao(id, motivo, valor.value, tipo, data)] + cs[i].movimentacoes)
    ensures (forall i :: 0 <= i < |cs| ==> cs[i].id != contaId) ==> r == cs
  {
    if motivo == "" || valor.None? then cs
    else
      var m := Movimentacao(id, motivo, valor.value, tipo, data);
      var f := ComMovimentacao(m);
      var r := MapConta(cs, contaId, f);
      assert forall i :: 0 <= i < |cs| && cs[i].id == contaId ==> r[i] == cs[i].(movimentacoes := [m] + cs[i].movimentacoes);
      assert (forall i :: 0 <= i < |cs| ==> cs[i].id != contaId) ==> r == cs;
      r
  }

  /** The account update that records `m`: it goes in front of the movements; every other field is kept. */
  function ComMovimentacao(m: Movimentacao): Conta -> Conta {
    (c: Conta) => c.(movimentacoes := [m] + c.movimentacoes)
  }

  /** The account update that deletes the movements with id `movId`; every other field is kept. */
  function SemMovimentacaoEm(movId: string): Conta -> Conta {
    (c: Conta) => c.(movimentacoes := SemMovimentacao(c.movimentacoes, movId))
  }

  /** The movements of `ms` whose id is not `movId`, every copy kept and in their original order. */
  function SemMovimentacao(ms: seq<Movimentacao>, movId: string): (r: seq<Movimentacao>)
    ensures IsSubseq(r, ms)
    ensures forall m :: m in r <==> m in ms && m.id != movId
    ensures forall m :: multiset(r)[m] == if m.id != movId then multiset(ms)[m] else 0
    ensures (forall j :: 0 <= j < |ms| ==> ms[j].id != movId) ==> r == ms
  {
    Filter(ms, OutraMovimentacao(movId))
  }

  /** The test that keeps a movement when its id is not `movId`. */
  function OutraMovimentacao(movId: string): Movimentacao -> bool {
    (m: Movimentacao) => m.id != movId
  }

  /** The test that keeps an account when its id is not `id`. */
  function OutraConta(id: string): Conta -> bool {
    (c: Conta) => c.id != id
  }

  /** Deleting a movement: every account with id `contaId` drops its movements with id `movId`. */
  function DeleteMovimentacao(cs: seq<Conta>, contaId: string, movId: string): (r: seq<Conta>)
    ensures |r| == |cs|
    ensures forall i :: 0 <= i < |cs| ==> r[i].id == cs[i].id
    ensures forall i :: 0 <= i < |cs| && cs[i].id != contaId ==> r[i] == cs[i]
    ensures forall i :: 0 <= i < |cs| && cs[i].id == contaId ==>
      && r[i] == cs[i].(movimentacoes := r[i].movimentacoes)
      && IsSubseq(r[i].movimentacoes, cs[i].movimentacoes)
      && (forall m :: m in r[i].movimentacoes <==> m in cs[i].movimentacoes && m.id != movId)
      && (forall m :: multiset(r[i].movimentacoes)[m] == if m.id != movId then multiset(cs[i].movimentacoes)[m] else 0)
    ensures (forall i, j :: 0 <= i < |cs| && cs[i].id == contaId && 0 <= j < |cs[i].movimentacoes| ==>
               cs[i].movimentacoes[j].id != movId) ==> r == cs
  {
    var r := MapConta(cs, contaId, SemMovimentacaoEm(movId));
    assert (forall i, j :: 0 <= i < |cs| && cs[i].id == contaId && 0 <= j < |cs[i].movimentacoes| ==>
              cs[i].movimentacoes[j].id != movId) ==> r == cs;
    r
  }

  /** Deleting an account: the accounts whose id is not `id`, in their order. */
  function DeleteConta(cs: seq<Conta>, id: string): (r: seq<Conta>)
    ensures |r| <= |cs|
    ensures IsSubseq(r, cs)
    ensures forall c :: c in r <==> c in cs && c.id != id
    ensures forall c :: multiset(r)[c] == if c.id != id then multiset(cs)[c] else 0
    ensures forall i :: 0 <= i < |r| ==> r[i].id != id
    ensures (forall i :: 0 <= i < |cs| ==> cs[i].id != id) ==> r == cs
  {
    var r := Filter(cs, OutraConta(id));
    assert forall i :: 0 <= i < |r| ==> r[i] in r;
    r
  }

  // ---------------------------------------------------------------------
  // Effect of the transitions on balances, totals and id uniqueness

  /** A new account adds its opening balance to the grand total. */
  lemma AddContaSaldoGeral(cs: seq<Conta>, pessoa: string, saldoInicial: Option<real>, id: string, data: string)
    requires pessoa != ""
    ensures SaldoGeral(AddConta(cs, pessoa, saldoInicial, id, data)) == SaldoGeral(cs) + saldoInicial.GetOr(0.0)
  {
    var r := AddConta(cs, pessoa, saldoInicial, id, data);
  }

  /** A new account with an id not yet in use keeps the ids unique. */
  lemma AddContaKeepsIdsUnicos(cs: seq<Conta>, pessoa: string, saldoInicial: Option<real>, id: string, data: string)
    requires IdsUnicos(cs)
    requires forall i :: 0 <= i < |cs| ==> cs[i].id != id
    ensures IdsUnicos(AddConta(cs, pessoa, saldoInicial, id, data))
  {
    var r := AddConta(cs, pessoa, saldoInicial, id, data);
    if pessoa != "" {
      forall i, j | 0 <= i < j < |r| ensures r[i].id != r[j].id {
        assert r[j] == cs[j - 1];
        if i > 0 { assert r[i] == cs[i - 1]; }
      }
    }
  }

  /** A credit of `v` raises the target account's balance by `v`; a debit lowers it by `v`. */
  lemma AddMovimentacaoSaldo(cs: seq<Conta>, contaId: string, motivo: string, valor: Option<real>, tipo: Tipo,
                             id: string, data: string, k: nat)
    requires motivo != "" && valor.Some? && k < |cs| && cs[k].id == contaId
    ensures CalcularSaldo(AddMovimentacao(cs, contaId, motivo, valor, tipo, id, data)[k])
         == CalcularSaldo(cs[k]) + (if tipo == Adicionar then valor.value else -valor.value)
  {
    SaldoPrepend(cs[k], Movimentacao(id, motivo, valor.value, tipo, data));
  }

  /** With unique ids, a movement on an existing account moves the grand total by its signed amount. */
  lemma AddMovimentacaoSaldoGeral(cs: seq<Conta>, contaId: string, motivo: string, valor: Option<real>, tipo: Tipo,
                                  id: string, data: string, k: nat)
    requires motivo != "" && valor.Some? && k < |cs| && cs[k].id == contaId && IdsUnicos(cs)
    ensures SaldoGeral(AddMovimentacao(cs, contaId, motivo, valor, tipo, id, data))
         == SaldoGeral(cs) + (if tipo == Adicionar then valor.value else -valor.value)
  {
    var r := AddMovimentacao(cs, contaId, motivo, valor, tipo, id, data);
    AddMovimentacaoSaldo(cs, contaId, motivo, valor, tipo, id, data, k);
    forall i | 0 <= i < |cs| && i != k ensures r[i] == cs[i] {
      assert cs[i].id != contaId by {
        if i < k { assert cs[i].id != cs[k].id; } else { assert cs[k].id != cs[i].id; }
      }
    }
    SomaSaldosUpdate(cs, r, k);
  }

  /** Two movements in a row: a credit of 100 then a debit of 30 on an empty account with opening balance 0 leave 70. */
  lemma CreditThenDebit(cs: seq<Conta>, contaId: string, k: nat, id1: string, id2: string, data: string)
    requires k < |cs| && cs[k].id == contaId && cs[k].saldoInicial == 0.0 && cs[k].movimentacoes == []
    ensures CalcularSaldo(AddMovimentacao(AddMovimentacao(cs, contaId, "Aluguel", Some(100.0), Adicionar, id1, data),
                                          contaId, "Comida", Some(30.0), Descontar, id2, data)[k]) == 70.0
  {
    var r1 := AddMovimentacao(cs, contaId, "Aluguel", Some(100.0), Adicionar, id1, data);
    AddMovimentacaoSaldo(cs, contaId, "Aluguel", Some(100.0), Adicionar, id1, data, k);
    AddMovimentacaoSaldo(r1, contaId, "Comida", Some(30.0), Descontar, id2, data, k);
  }

  /** With unique movement ids, deleting a movement takes its signed amount back out of the balance. */
  lemma DeleteMovimentacaoSaldo(cs: seq<Conta>, contaId: string, movId: string, i: nat, k: nat)
    requires i < |cs| && cs[i].id == contaId
    requires k < |cs[i].movimentacoes| && cs[i].movimentacoes[k].id == movId
    requires MovIdsUnicos(cs[i].movimentacoes)
    ensures CalcularSaldo(DeleteMovimentacao(cs, contaId, movId)[i])
         == CalcularSaldo(cs[i]) - Efeito(cs[i].movimentacoes[k])
  {
    var ms := cs[i].movimentacoes;
    forall j | 0 <= j < |ms| && j != k ensures OutraMovimentacao(movId)(ms[j]) {
      if j < k { assert ms[j].id != ms[k].id; } else { assert ms[k].id != ms[j].id; }
    }
    FilterRemovesOne(ms, OutraMovimentacao(movId), k);
    SaldoRemoveAt(cs[i], k);
  }

  /** With unique ids, deleting the account at position `k` deletes exactly that position and its balance from the grand total. */
  lemma DeleteContaRemovesAt(cs: seq<Conta>, k: nat)
    requires IdsUnicos(cs) && k < |cs|
    ensures DeleteConta(cs, cs[k].id) == cs[..k] + cs[k + 1..]
    ensures SaldoGeral(DeleteConta(cs, cs[k].id)) == SaldoGeral(cs) - CalcularSaldo(cs[k])
    ensures IdsUnicos(DeleteConta(cs, cs[k].id))
  {
    forall j | 0 <= j < |cs| && j != k ensures OutraConta(cs[k].id)(cs[j]) {
      if j < k { assert cs[j].id != cs[k].id; } else { assert cs[k].id != cs[j].id; }
    }
    FilterRemovesOne(cs, OutraConta(cs[k].id), k);
    SomaSaldosRemoveAt(cs, k);
    IdsUnicosRemoveAt(cs, k);
  }

  lemma IdsUnicosRemoveAt(cs: seq<Conta>, k: nat)
    requires IdsUnicos(cs) && k < |cs|
    ensures IdsUnicos(cs[..k] + cs[k + 1..])
  {
    var r := cs[..k] + cs[k + 1..];
    forall i, j | 0 <= i < j < |r| ensures r[i].id != r[j].id {
      var i' := if i < k then i else i + 1;
      var j' := if j < k then j else j + 1;
      assert r[i] == cs[i'] && r[j] == cs[j'] && i' < j';
    }
  }

  /** Deleting an account keeps the ids unique. */
  lemma DeleteContaKeepsIdsUnicos(cs: seq<Conta>, id: string)
    requires IdsUnicos(cs)
    ensures IdsUnicos(DeleteConta(cs, id))
  {
    if k :| 0 <= k < |cs| && cs[k].id == id {
      DeleteContaRemovesAt(cs, k);
    }
  }

  /** Recording or deleting a movement never changes the account ids, so they stay unique. */
  lemma MovimentacaoKeepsIdsUnicos(cs: seq<Conta>, contaId: string, motivo: string, valor: Option<real>, tipo: Tipo,
                                   id: string, data: string, movId: string)
    requires IdsUnicos(cs)
    ensures IdsUnicos(AddMovimentacao(cs, contaId, motivo, valor, tipo, id, data))
    ensures IdsUnicos(DeleteMovimentacao(cs, contaId, movId))
  {
    var r1 := AddMovimentacao(cs, contaId, motivo, valor, tipo, id, data);
    var r2 := DeleteMovimentacao(cs, contaId, movId);
    forall i, j | 0 <= i < j < |cs| ensures r1[i].id != r1[j].id && r2[i].id != r2[j].id {
      assert cs[i].id != cs[j].id;
    }
  }
}

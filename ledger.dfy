/**
 * The ledger's data and its derived values: an account (`Conta`) belongs to
 * one person and holds an opening balance and a newest-first list of
 * movements (`Movimentacao`), each a credit (`Adicionar`) or a debit
 * (`Descontar`). Balances and totals are never stored: they are folds over
 * the current list of accounts, recomputed on every read.
 *
 * Amounts are exact `real`s; the source keeps them as JavaScript numbers.
 */
module Ledger {

  datatype Tipo = Adicionar | Descontar

  datatype Movimentacao = Movimentacao(id: string, motivo: string, valor: real, tipo: Tipo, data: string)

  datatype Conta = Conta(id: string, pessoa: string, saldoInicial: real, movimentacoes: seq<Movimentacao>, data: string)

  /** The two accounts the ledger starts with. */
  function Seed(): (r: seq<Conta>)
    ensures |r| == 2
    ensures CalcularSaldo(r[0]) == 50.0 && CalcularSaldo(r[1]) == -200.0
    ensures TotalPositivo(r) == 50.0 && TotalNegativo(r) == 200.0 && SaldoGeral(r) == -150.0
  {
    var r :=
    [ Conta("1", "João Silva", 0.0,
            [Movimentacao("1", "Almoço dividido", 50.0, Adicionar, "2026-02-01T00:00:00.000Z")],
            "2026-02-01T00:00:00.000Z"),
      Conta("2", "Maria Santos", 0.0,
            [Movimentacao("2", "Empréstimo", 200.0, Descontar, "2026-01-28T00:00:00.000Z")],
            "2026-01-28T00:00:00.000Z") ];
    assert r[1..][1..] == [];
    r
  }

  // ---------------------------------------------------------------------
  // Balance of one account

  /** One step of the balance fold: a credit adds its amount, a debit subtracts it. */
  function Aplicar(acc: real, m: Movimentacao): real {
    if m.tipo == Adicionar then acc + m.valor else acc - m.valor
  }

  /** Left fold of `Aplicar` over `ms`, starting from `acc`. */
  function Reduzir(acc: real, ms: seq<Movimentacao>): (r: real)
    ensures r == acc + Soma(ms, Adicionar) - Soma(ms, Descontar)
    decreases |ms|
  {
    if ms == [] then acc else Reduzir(Aplicar(acc, ms[0]), ms[1..])
  }

  /** The balance of an account: its movements folded onto its opening balance,
      that is, the opening balance plus all credits minus all debits. */
  function CalcularSaldo(c: Conta): (r: real)
    ensures r == c.saldoInicial + Soma(c.movimentacoes, Adicionar) - Soma(c.movimentacoes, Descontar)
  {
    Reduzir(c.saldoInicial, c.movimentacoes)
  }

  /** Reference definition: the sum of the amounts of the movements of kind `t`. */
  function Soma(ms: seq<Movimentacao>, t: Tipo): real
    decreases |ms|
  {
    if ms == [] then 0.0
    else (if ms[0].tipo == t then ms[0].valor else 0.0) + Soma(ms[1..], t)
  }

  /** The signed effect of one movement on a balance. */
  function Efeito(m: Movimentacao): real {
    if m.tipo == Adicionar then m.valor else -m.valor
  }

  lemma {:induction false} SomaConcat(a: seq<Movimentacao>, b: seq<Movimentacao>, t: Tipo)
    ensures Soma(a + b, t) == Soma(a, t) + Soma(b, t)
    decreases |a|
  {
    if a == [] {
      assert a + b == b;
    } else {
      assert (a + b)[1..] == a[1..] + b;
      SomaConcat(a[1..], b, t);
    }
  }

  /** Removing the same element from two sequences with equal multisets keeps them equal. */
  lemma MultisetWithout(ms: seq<Movimentacao>, ns: seq<Movimentacao>, j: nat)
    requires multiset(ms) == multiset(ns) && ms != [] && j < |ns| && ns[j] == ms[0]
    ensures multiset(ms[1..]) == multiset(ns[..j] + ns[j + 1..])
  {
    var x := ms[0];
    assert ns == ns[..j] + [x] + ns[j + 1..];
    assert ms == [x] + ms[1..];
    calc {
      multiset(ms[1..]);
      multiset(ms) - multiset{x};
      multiset(ns) - multiset{x};
      multiset(ns[..j]) + multiset(ns[j + 1..]);
      multiset(ns[..j] + ns[j + 1..]);
    }
  }

  /** The sum of one kind of movement does not depend on the order of the movements. */
  lemma {:induction false} SomaPermutation(ms: seq<Movimentacao>, ns: seq<Movimentacao>, t: Tipo)
    requires multiset(ms) == multiset(ns)
    ensures Soma(ms, t) == Soma(ns, t)
    decreases |ms|
  {
    if ms == [] {
      assert |ns| == |multiset(ns)| == 0;
    } else {
      var x := ms[0];
      assert x in multiset(ns);
      var j :| 0 <= j < |ns| && ns[j] == x;
      var rest := ns[..j] + ns[j + 1..];
      assert ns == ns[..j] + ([x] + ns[j + 1..]);
      assert ms == [x] + ms[1..];
      MultisetWithout(ms, ns, j);
      SomaPermutation(ms[1..], rest, t);
      SomaConcat(ns[..j], [x] + ns[j + 1..], t);
      SomaConcat([x], ns[j + 1..], t);
      SomaConcat(ns[..j], ns[j + 1..], t);
    }
  }

  /** Any reordering of an account's movements leaves its balance unchanged. */
  lemma SaldoPermutation(c: Conta, d: Conta)
    requires c.saldoInicial == d.saldoInicial
    requires multiset(c.movimentacoes) == multiset(d.movimentacoes)
    ensures CalcularSaldo(c) == CalcularSaldo(d)
  {
    SomaPermutation(c.movimentacoes, d.movimentacoes, Adicionar);
    SomaPermutation(c.movimentacoes, d.movimentacoes, Descontar);
  }

  /** Putting a movement in front of the list moves the balance by its signed amount. */
  lemma SaldoPrepend(c: Conta, m: Movimentacao)
    ensures CalcularSaldo(c.(movimentacoes := [m] + c.movimentacoes)) == CalcularSaldo(c) + Efeito(m)
  {
    var d := c.(movimentacoes := [m] + c.movimentacoes);
    assert d.movimentacoes[1..] == c.movimentacoes;
  }

  /** Deleting the movement at position `k` takes its signed amount back out of the balance. */
  lemma SaldoRemoveAt(c: Conta, k: nat)
    requires k < |c.movimentacoes|
    ensures CalcularSaldo(c.(movimentacoes := c.movimentacoes[..k] + c.movimentacoes[k + 1..]))
         == CalcularSaldo(c) - Efeito(c.movimentacoes[k])
  {
    var ms := c.movimentacoes;
    var d := c.(movimentacoes := ms[..k] + ms[k + 1..]);
    assert ms == ms[..k] + ([ms[k]] + ms[k + 1..]);
    assert ([ms[k]] + ms[k + 1..])[1..] == ms[k + 1..];
    SomaConcat(ms[..k], [ms[k]] + ms[k + 1..], Adicionar);
    SomaConcat(ms[..k], [ms[k]] + ms[k + 1..], Descontar);
    SomaConcat(ms[..k], ms[k + 1..], Adicionar);
    SomaConcat(ms[..k], ms[k + 1..], Descontar);
  }

  // ---------------------------------------------------------------------
  // Totals over all accounts

  /** The part of a balance counted in the positive total. */
  function Positivo(x: real): real { if x > 0.0 then x else 0.0 }

  /** The part of a balance counted in the negative total: the magnitude of a negative balance. */
  function Negativo(x: real): real { if x < 0.0 then -x else 0.0 }

  /** Left fold over the accounts adding each strictly positive balance. */
  function TotalPositivoDe(acc: real, cs: seq<Conta>): (r: real)
    ensures r == acc + SomaPositivos(cs)
    decreases |cs|
  {
    if cs == [] then acc
    else
      var saldo := CalcularSaldo(cs[0]);
      TotalPositivoDe(if saldo > 0.0 then acc + saldo else acc, cs[1..])
  }

  /** The magnitude of `x` (`Math.abs`). */
  function Abs(x: real): real { if x < 0.0 then -x else x }

  /** Left fold over the accounts adding the magnitude of each strictly negative balance. */
  function TotalNegativoDe(acc: real, cs: seq<Conta>): (r: real)
    ensures r == acc + SomaNegativos(cs)
    decreases |cs|
  {
    if cs == [] then acc
    else
      var saldo := CalcularSaldo(cs[0]);
      TotalNegativoDe(if saldo < 0.0 then acc + Abs(saldo) else acc, cs[1..])
  }

  /** Reference definition: the sum of the positive parts of the balances. */
  function SomaPositivos(cs: seq<Conta>): (r: real)
    ensures r >= 0.0
    decreases |cs|
  {
    if cs == [] then 0.0 else Positivo(CalcularSaldo(cs[0])) + SomaPositivos(cs[1..])
  }

  /** Reference definition: the sum of the magnitudes of the negative balances. */
  function SomaNegativos(cs: seq<Conta>): (r: real)
    ensures r >= 0.0
    decreases |cs|
  {
    if cs == [] then 0.0 else Negativo(CalcularSaldo(cs[0])) + SomaNegativos(cs[1..])
  }

  /** Reference definition: the sum of all balances. */
  function SomaSaldos(cs: seq<Conta>): real
    decreases |cs|
  {
    if cs == [] then 0.0 else CalcularSaldo(cs[0]) + SomaSaldos(cs[1..])
  }

  /** The sum of the strictly positive balances; never negative. */
  function TotalPositivo(cs: seq<Conta>): (r: real)
    ensures r == SomaPositivos(cs)
    ensures r >= 0.0
  {
    TotalPositivoDe(0.0, cs)
  }

  /** The sum of the magnitudes of the strictly negative balances; never negative. */
  function TotalNegativo(cs: seq<Conta>): (r: real)
    ensures r == SomaNegativos(cs)
    ensures r >= 0.0
  {
    TotalNegativoDe(0.0, cs)
  }

  /** The grand total: positive total minus negative total, which is the sum of all balances. */
  function SaldoGeral(cs: seq<Conta>): (r: real)
    ensures r == SomaSaldos(cs)
  {
    SomaPartes(cs);
    TotalPositivo(cs) - TotalNegativo(cs)
  }

  lemma {:induction false} SomaPartes(cs: seq<Conta>)
    ensures SomaPositivos(cs) - SomaNegativos(cs) == SomaSaldos(cs)
    decreases |cs|
  {
    if cs != [] {
      SomaPartes(cs[1..]);
    }
  }

  lemma {:induction false} SomasConcat(a: seq<Conta>, b: seq<Conta>)
    ensures SomaPositivos(a + b) == SomaPositivos(a) + SomaPositivos(b)
    ensures SomaNegativos(a + b) == SomaNegativos(a) + SomaNegativos(b)
    ensures SomaSaldos(a + b) == SomaSaldos(a) + SomaSaldos(b)
    decreases |a|
  {
    if a == [] {
      assert a + b == b;
    } else {
      assert (a + b)[1..] == a[1..] + b;
      SomasConcat(a[1..], b);
    }
  }

  /** Replacing the account at position `k` moves the sum of balances by the change in that account's balance. */
  lemma SomaSaldosUpdate(a: seq<Conta>, b: seq<Conta>, k: nat)
    requires |a| == |b| && k < |a|
    requires forall i :: 0 <= i < |a| && i != k ==> a[i] == b[i]
    ensures SomaSaldos(b) == SomaSaldos(a) - CalcularSaldo(a[k]) + CalcularSaldo(b[k])
  {
    assert a == a[..k] + ([a[k]] + a[k + 1..]);
    assert b == b[..k] + ([b[k]] + b[k + 1..]);
    assert a[..k] == b[..k];
    assert a[k + 1..] == b[k + 1..];
    assert ([a[k]] + a[k + 1..])[1..] == a[k + 1..];
    assert ([b[k]] + b[k + 1..])[1..] == b[k + 1..];
    SomasConcat(a[..k], [a[k]] + a[k + 1..]);
    SomasConcat(b[..k], [b[k]] + b[k + 1..]);
  }

  /** Deleting the account at position `k` takes its balance out of the sum of balances. */
  lemma SomaSaldosRemoveAt(cs: seq<Conta>, k: nat)
    requires k < |cs|
    ensures SomaSaldos(cs[..k] + cs[k + 1..]) == SomaSaldos(cs) - CalcularSaldo(cs[k])
  {
    assert cs == cs[..k] + ([cs[k]] + cs[k + 1..]);
    assert ([cs[k]] + cs[k + 1..])[1..] == cs[k + 1..];
    SomasConcat(cs[..k], [cs[k]] + cs[k + 1..]);
    SomasConcat(cs[..k], cs[k + 1..]);
  }

  /** An account with zero balance, wherever it stands, counts in neither total. */
  lemma ZeroSaldoNeutral(cs: seq<Conta>, k: nat, c: Conta)
    requires k <= |cs| && CalcularSaldo(c) == 0.0
    ensures TotalPositivo(cs[..k] + [c] + cs[k..]) == TotalPositivo(cs)
    ensures TotalNegativo(cs[..k] + [c] + cs[k..]) == TotalNegativo(cs)
  {
    assert cs == cs[..k] + cs[k..];
    assert cs[..k] + [c] + cs[k..] == cs[..k] + ([c] + cs[k..]);
    assert ([c] + cs[k..])[1..] == cs[k..];
    SomasConcat(cs[..k], [c] + cs[k..]);
    SomasConcat(cs[..k], cs[k..]);
  }

  /** The positive total is zero exactly when no account has a positive balance. */
  lemma {:induction false} TotalPositivoZeroIff(cs: seq<Conta>)
    ensures TotalPositivo(cs) == 0.0 <==> forall i :: 0 <= i < |cs| ==> CalcularSaldo(cs[i]) <= 0.0
    decreases |cs|
  {
    if cs != [] {
      TotalPositivoZeroIff(cs[1..]);
      assert forall i :: 1 <= i < |cs| ==> cs[i] == cs[1..][i - 1];
    }
  }

  /** The negative total is zero exactly when no account has a negative balance. */
  lemma {:induction false} TotalNegativoZeroIff(cs: seq<Conta>)
    ensures TotalNegativo(cs) == 0.0 <==> forall i :: 0 <= i < |cs| ==> CalcularSaldo(cs[i]) >= 0.0
    decreases |cs|
  {
    if cs != [] {
      TotalNegativoZeroIff(cs[1..]);
      assert forall i :: 1 <= i < |cs| ==> cs[i] == cs[1..][i - 1];
    }
  }

  /** Balances of +70, -200 and 0 give a positive total of 70, a negative total of 200 and a grand total of -130. */
  lemma TotalsExample(a: Conta, b: Conta, c: Conta)
    requires CalcularSaldo(a) == 70.0 && CalcularSaldo(b) == -200.0 && CalcularSaldo(c) == 0.0
    ensures TotalPositivo([a, b, c]) == 70.0
    ensures TotalNegativo([a, b, c]) == 200.0
    ensures SaldoGeral([a, b, c]) == -130.0
  {
    assert [a, b, c][1..] == [b, c] && [b, c][1..] == [c] && [c][1..] == [];
    assert SomaPositivos([c]) == 0.0 && SomaNegativos([c]) == 0.0;
    assert SomaPositivos([b, c]) == 0.0 && SomaNegativos([b, c]) == 200.0;
  }
}

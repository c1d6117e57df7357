# Ledger of personal accounts (MpGestorAccounts)

A model of the ledger held by the `App` component of `src/app/App.tsx`. The
component keeps a list of accounts (`Conta`). Each account belongs to one
person (`pessoa`) and has an opening balance (`saldoInicial`) and a
newest-first list of movements (`Movimentacao`). A movement is a credit
(`adicionar`) or a debit (`descontar`) with a reason (`motivo`) and an
amount (`valor`). Four handlers replace the list with a newly built one:

- create an account;
- record a movement;
- delete a movement;
- delete an account.

The balance of an account and the three totals over all accounts are
derived on every read by folds.

The project is organised as follows:

- `ledger.dfy` (module `Ledger`): the data, the seed state, the balance fold
  `CalcularSaldo`, and the totals `TotalPositivo`, `TotalNegativo` and
  `SaldoGeral`. Each fold is written as the left fold the source runs
  (`reduce`) and is proved equal to an independent reference sum.
- `handlers.dfy` (module `Handlers`): each handler as a pure function from the
  old list to the new one, together with lemmas about balances, totals and
  id uniqueness across the transitions.
- `store.dfy` (module `Store`): class `App` with the mutable field `contas`.
  It has one method per handler, and each method's postcondition ties the
  new `contas` to the matching `Handlers` function.
- `seqs.dfy` (module `Seqs`): the `filter` the source uses, and the
  order-preserving-subsequence relation that says what a filter keeps.
- `wrappers.dfy` (module `Wrappers`): `Option`, used for the numeric form
  fields.

Modelling choices:

- Amounts are exact `real`s.
- A numeric form field is `Option<real>`. `None` is an empty field and
  `Some(v)` is a filled field whose text parses to `v`.
- The text fields `pessoa` and `motivo` are strings. JavaScript's `!s` is
  modelled as `s == ""`.
- The id and timestamp that the source takes from `Date.now()` and
  `new Date().toISOString()` are method parameters.
- Each handler returns the text of the success notification it raises, or
  `None` when validation fails and nothing changes.

The model follows what the code does, including what it does not check:

- No handler checks that an amount is positive: `valor` is a bare
  `parseFloat` (src/app/App.tsx:101). So the model has no `valor > 0`
  invariant, and negative amounts are allowed.
- No handler checks that ids are unique. The lemmas that need unique ids
  take `IdsUnicos` / `MovIdsUnicos` as a precondition.
  `AddMovimentacao` and `DeleteMovimentacao` act on every account whose id
  matches, as the source's `map` does.
- The handlers return nothing in the source. They do not return the created
  account or movement.
- Deleting a movement or an account raises its notification even when
  nothing was removed (src/app/App.tsx:133, 138).

## Model

| member | source | states |
|---|---|---|
| Ledger.Seed | src/app/App.tsx:30-61 | the two seed accounts have balances 50 and -200, so the positive total is 50, the negative total 200 and the grand total -150 |
| Ledger.Reduzir | src/app/App.tsx:142-144 | folding the movements onto any starting value gives that value plus the sum of the credit amounts minus the sum of the debit amounts |
| Ledger.CalcularSaldo | src/app/App.tsx:141-145 | an account's balance is its opening balance plus the sum of its credits minus the sum of its debits |
| Ledger.SomaConcat | src/app/App.tsx:142-144 | the sum of one kind of movement over two concatenated lists is the sum of the two sums |
| Ledger.SomaPermutation | src/app/App.tsx:142-144 | the sum of one kind of movement is the same for any two lists with the same multiset of movements |
| Ledger.SaldoPermutation | src/app/App.tsx:141-145 | reordering an account's movements does not change its balance |
| Ledger.SaldoPrepend | src/app/App.tsx:110 | putting a movement in front of an account's movements moves the balance by +valor for a credit and -valor for a debit |
| Ledger.SaldoRemoveAt | src/app/App.tsx:128 | deleting the movement at one position takes its signed amount back out of the balance |
| Ledger.TotalPositivo | src/app/App.tsx:175-178 | the positive total equals the reference sum of positive balances and is never negative |
| Ledger.TotalNegativo | src/app/App.tsx:180-183 | the negative total equals the reference sum of the magnitudes of the negative balances and is never negative |
| Ledger.SomaPositivos | src/app/App.tsx:175-178 | the sum of the positive parts of the balances is never negative |
| Ledger.SomaNegativos | src/app/App.tsx:180-183 | the sum of the magnitudes of the negative balances is never negative |
| Ledger.TotalPositivoDe | src/app/App.tsx:175-178 | the positive-total fold from any start equals the start plus the sum of the strictly positive balances |
| Ledger.TotalNegativoDe | src/app/App.tsx:180-183 | the negative-total fold from any start (with `Math.abs` on each negative balance) equals the start plus the sum of the magnitudes of the strictly negative balances |
| Ledger.SomaPartes | src/app/App.tsx:175-185 | the positive sum minus the negative sum is the sum of all balances |
| Ledger.SaldoGeral | src/app/App.tsx:185 | the grand total, positive total minus negative total, equals the sum of the balances of all accounts |
| Ledger.SomasConcat | src/app/App.tsx:175-183 | the positive sum, the negative sum and the sum of balances all add up over concatenated account lists |
| Ledger.SomaSaldosUpdate | src/app/App.tsx:106-114 | replacing one account changes the sum of balances by exactly that account's change in balance |
| Ledger.SomaSaldosRemoveAt | src/app/App.tsx:137 | deleting the account at one position takes its balance out of the sum of balances |
| Ledger.ZeroSaldoNeutral | src/app/App.tsx:175-183 | an account with zero balance, inserted anywhere, changes neither the positive nor the negative total |
| Ledger.TotalPositivoZeroIff | src/app/App.tsx:175-178 | the positive total is zero if and only if no account has a positive balance |
| Ledger.TotalNegativoZeroIff | src/app/App.tsx:180-183 | the negative total is zero if and only if no account has a negative balance |
| Ledger.TotalsExample | src/app/App.tsx:175-185 | balances +70, -200 and 0 give totals 70 and 200 and a grand total of -130; the zero account adds to neither |
| Seqs.Filter | src/app/App.tsx:128 | the result is an order-preserving subsequence of the input that holds every copy of each element passing the test and no element failing it; when every element passes, the input is returned unchanged |
| Seqs.FilterRemovesOne | src/app/App.tsx:137 | when exactly one position fails the test, filtering deletes just that position |
| Handlers.MapConta | src/app/App.tsx:106-114 | the length is preserved, and each account whose id matches is replaced by its update while every other account stays as it was |
| Handlers.AddConta | src/app/App.tsx:72-85 | an empty name leaves the list unchanged; otherwise the new account is at index 0 with the given id, name and time and no movements; its opening balance is the entered value, or 0 when none was entered; its balance equals its opening balance; and the old list follows it unchanged |
| Handlers.AddMovimentacao | src/app/App.tsx:93-114 | an empty reason or amount leaves the list unchanged; otherwise the new movement is prepended to the movements of each account with the given id, and only to those; every other account is unchanged; length, order and ids are preserved; an unknown account id changes nothing |
| Handlers.SemMovimentacao | src/app/App.tsx:128 | the kept movements are an order-preserving subsequence holding every copy of each movement whose id is not movId and no movement with id movId; with movId absent, the list is unchanged |
| Handlers.DeleteMovimentacao | src/app/App.tsx:123-132 | other accounts are untouched; the target account keeps its other fields, and its movements are an order-preserving subsequence holding every copy of each old movement whose id is not movId and none with id movId; when movId is absent from it, the list is unchanged |
| Handlers.DeleteConta | src/app/App.tsx:136-137 | no remaining account has the id; the rest keep their order (a subsequence) and are every copy of each old account with another id; the length never grows; an absent id changes nothing |
| Handlers.AddContaSaldoGeral | src/app/App.tsx:77-85 | creating an account adds its opening balance (0 when none was entered) to the grand total |
| Handlers.AddContaKeepsIdsUnicos | src/app/App.tsx:78 | a new account whose id is not yet in use keeps the ids unique |
| Handlers.AddMovimentacaoSaldo | src/app/App.tsx:106-114 | after a movement of amount v is recorded on an account, its balance is v higher for a credit and v lower for a debit |
| Handlers.AddMovimentacaoSaldoGeral | src/app/App.tsx:106-114 | with unique ids, recording a movement of amount v moves the grand total by +v for a credit and -v for a debit |
| Handlers.CreditThenDebit | src/app/App.tsx:93-114 | a credit of 100 then a debit of 30 on an account with opening balance 0 and no movements leaves a balance of 70 |
| Handlers.DeleteMovimentacaoSaldo | src/app/App.tsx:123-132 | with unique movement ids, deleting a movement takes its signed amount back out of the target account's balance |
| Handlers.DeleteContaRemovesAt | src/app/App.tsx:136-137 | with unique ids, deleting an account removes exactly its position, lowers the grand total by its balance and keeps the ids unique |
| Handlers.IdsUnicosRemoveAt | src/app/App.tsx:137 | removing one position from a list with unique ids leaves the ids unique |
| Handlers.DeleteContaKeepsIdsUnicos | src/app/App.tsx:136-137 | deleting an account keeps the ids unique |
| Handlers.MovimentacaoKeepsIdsUnicos | src/app/App.tsx:106-132 | recording or deleting a movement never changes any account id, so unique ids stay unique |
| Store.App.constructor | src/app/App.tsx:30-61 | the component starts from the two seed accounts |
| Store.App.HandleAddConta | src/app/App.tsx:72-91 | the new `contas` is `AddConta` of the old one; "Conta adicionada!" is raised exactly when the name is non-empty |
| Store.App.HandleAddMovimentacao | src/app/App.tsx:93-121 | the new `contas` is `AddMovimentacao` of the old one; the credit or debit message is raised exactly when reason and amount are non-empty |
| Store.App.HandleDeleteMovimentacao | src/app/App.tsx:123-134 | the new `contas` is `DeleteMovimentacao` of the old one; "Movimentação removida!" is always raised |
| Store.App.HandleDeleteConta | src/app/App.tsx:136-139 | the new `contas` is `DeleteConta` of the old one; "Conta removida!" is always raised |

## Left out

- Rendering (JSX, dialogs, collapsible panels, selects, icons): presentation only (src/app/App.tsx:187-407).
- The `toast.success` call itself, a foreign UI library. The model returns the message text instead.
- Form-field resets and dialog open/close state (`setPessoa('')`, `setOpen(false)`, `setOpenMovimentacao(null)`): UI state only.
- `formatCurrency`, `formatDate`, `formatDateShort`: thin wrappers over `Intl.NumberFormat` / `Intl.DateTimeFormat`, a locale library that is not part of this model.
- `Date.now()` ids and `new Date().toISOString()` timestamps: clock I/O. They are parameters.
- `parseFloat`, NaN and IEEE rounding: amounts are exact reals. A non-empty field whose text does not parse (NaN in the source) is not modelled.
- `e.preventDefault()` and React's batching of `setContas`: each handler is modelled as one synchronous replacement of `contas`.

/** The `saldoTotal` template pipe (src/app/shared/pipes/saldo-total.pipe.ts):
    the balance total of a list of records, guarded against a binding that is
    not a list. A pure pipe: a function of its input alone. */
module SaldoTotalPipe {
  import opened ClienteModel
  import opened ServiceRules

  /** What a template may bind to the pipe: null or undefined, some value that
      is not an array, or an array of records. */
  datatype PipeInput = Missing | NotAnArray | Records(items: seq<Cliente>)

  /** SaldoTotalPipe.transform: 0 unless given an array; for an array the
      `reduce` from 0 of `cliente.saldo || 0`, which is the sum of the
      balances, negatives as they are and absent ones as 0. */
  function Transform(input: PipeInput): (r: int)
    ensures !input.Records? ==> r == 0
    ensures input.Records? ==> r == SumSaldo(input.items)
    ensures input == Records([]) ==> r == 0
  {
    match input
    case Records(items) =>
      ReduceIsSum(0, items);
      ReduceSaldo(0, items)
    case _ => 0
  }

  /** The pipe and ClienteService.getSaldoTotal compute the same total. */
  lemma TransformAgreesWithService(clients: seq<Cliente>)
    ensures Transform(Records(clients)) == SaldoTotal(clients)
  {
  }

  /** The total of two lists shown together is the sum of their totals. */
  lemma TransformAppend(a: seq<Cliente>, b: seq<Cliente>)
    ensures Transform(Records(a + b)) == Transform(Records(a)) + Transform(Records(b))
  {
    SumSaldoAppend(a, b);
  }

  /** A record with no balance, or a balance of 0, leaves the total as it is. */
  lemma TransformIgnoresZeroBalances(a: seq<Cliente>, c: Cliente, b: seq<Cliente>)
    requires c.saldo.None? || c.saldo == Some(0)
    ensures Transform(Records(a + [c] + b)) == Transform(Records(a + b))
  {
    SumSaldoAppend(a + [c], b);
    SumSaldoAppend(a, [c]);
    SumSaldoAppend(a, b);
  }

  /** Balances 1000, -500 and 300 total 800; an absent balance, 1000 and
      another absent one total 1000. */
  lemma TransformExamples(a: Cliente, b: Cliente, c: Cliente, d: Cliente, e: Cliente, f: Cliente)
    requires a.saldo == Some(1000) && b.saldo == Some(-500) && c.saldo == Some(300)
    requires d.saldo.None? && e.saldo == Some(1000) && f.saldo.None?
    ensures Transform(Records([a, b, c])) == 800
    ensures Transform(Records([d, e, f])) == 1000
  {
    assert [a, b, c][1..] == [b, c] && [b, c][1..] == [c];
    assert SumSaldo([c]) == 300;
    assert SumSaldo([b, c]) == -200;
    assert [d, e, f][1..] == [e, f] && [e, f][1..] == [f];
    assert SumSaldo([f]) == 0;
    assert SumSaldo([e, f]) == 1000;
  }
}

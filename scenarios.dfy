/** Callers of the ledger that check, from the contracts alone, the
    situations exercised by the repository's tests. */
module Scenarios {
  import opened Registry
  import opened Growth
  import opened Totals
  import opened DateOrder
  import opened Finances

  /** A payment posted to a new account. */
  method PostPayment(now: int) returns (account: Account, p: Transaction)
    ensures fresh(account) && account.Valid()
    ensures account.transactions == [p] && account.balance == 50.0
    ensures p.category == "Pagamento" && p.date == now
  {
    account := new Account("Conta Premium");
    var first := account.AddTransaction(50.0, 1, "Pagamento", now);
    p := first.value;
    assert SlotFor([], now) == 0;
    assert [][..0] + [p] + [][0..] == [p];
  }

  /** Then a deposit on the same day: the ledger keeps posting order for
      equal dates and the balance is their sum. */
  method PostTwo(now: int) returns (account: Account, p: Transaction, d: Transaction)
    ensures account.transactions == [p, d] && account.balance == 150.0
    ensures p.category == "Pagamento" && d.category == "Depósito"
  {
    account, p := PostPayment(now);
    assert SlotFor([p], now) == 1 by {
      assert Dated([p]) == [Keyed(now, p)];
    }
    var second := account.AddTransaction(100.0, 2, "Depósito", now);
    d := second.value;
    assert [p][..1] + [d] + [p][1..] == [p, d];
  }

  /** The category filter after those postings selects the payment. */
  method CategoryFilterScenario(now: int)
  {
    var account, p, d := PostTwo(now);
    var found := account.GetTransactions(None, None, Some(1));
    PaymentFilterExample(p, d);
    assert found == Success([p]);
    var all := account.GetTransactions(None, None, None);
    FilterNothing(account.transactions);
    assert all == Success([p, d]);
  }

  /** Filtering a payment and a deposit by the payment code keeps the
      payment only. */
  lemma PaymentFilterExample(p: Transaction, d: Transaction)
    requires p.category == "Pagamento" && d.category == "Depósito"
    ensures Filter([p, d], None, None, Some(1)) == Success([p])
  {
    assert [p, d] == [p] + [d];
    FilterCons(p, [d], None, None, Some(1));
    FilterSingle(d, None, None, Some(1));
    assert Selects(p, None, None, Some(1));
    SelectsByCode(d, 2, 1, None, None);
    assert [p] + [] == [p];
  }

  /** An unknown code is refused and changes nothing. */
  method InvalidCategoryScenario(now: int)
  {
    var account := new Account("Conta Estudante");
    var posted := account.AddTransaction(50.0, 99, "Erro", now);
    assert posted == Failure(InvalidCategory);
    assert Message(posted.error) == "Categoria inválida.";
    assert account.balance == 0.0 && account.transactions == [];
  }

  /** A second account of the same name is refused. */
  method DuplicateAccountScenario()
  {
    var client := new Client("Maria");
    var first := client.AddAccount("Conta Corrente");
    assert first.Success? && |client.accounts| == 1;
    assert client.HasAccount("Conta Corrente") by {
      assert client.accounts[0].name == "Conta Corrente";
    }
    var second := client.AddAccount("Conta Corrente");
    assert second == Failure(DuplicateAccount);
    assert |client.accounts| == 1;
  }

  /** The set-up of the net-worth test: a balance set to 2000 and 1000
      invested at 1% per month, backdated by 60 days. */
  method NetWorthSetup(now: int) returns (ana: Client, savings: Account, fund: Investment)
    ensures fresh(ana) && fresh(savings) && fresh(fund)
    ensures ana.accounts == [savings] && ana.investments == [fund]
    ensures savings.balance == 2000.0
    ensures fund.AsHolding() == Holding(1000.0, 0.01, now - Days(60))
    ensures fund.kind == "Fundos"
  {
    ana := new Client("Ana");
    var added := ana.AddAccount("Poupança");
    savings := added.value;
    savings.balance := 2000.0;
    fund := new Investment("Fundos", 1000.0, 0.01, now);
    fund.datePurchased := fund.datePurchased - Days(60);
    ana.AddInvestment(fund);
  }

  /** The net-worth test: 2000 plus 1000 grown over two months. */
  method NetWorthScenario(now: int)
  {
    var ana, savings, fund := NetWorthSetup(now);
    assert ana.Balances() == [2000.0];
    assert ana.Holdings() == [Holding(1000.0, 0.01, now - Days(60))];
    NetWorthExample(now);
    assert ana.GetNetWorth(now) == Success(3020.1);
  }

  /** The same investment sold into the account: the account gains its
      value, it is then worth nothing, and the net worth stays the same. */
  method SaleScenario(now: int)
  {
    var ana, savings, fund := NetWorthSetup(now);
    var h := Holding(1000.0, 0.01, now - Days(60));
    Examples(now - Days(60));
    NetWorthExample(now);
    SaleKeepsNetWorth([2000.0], [h], 0, 0, now);
    assert fund.CalculateValue(now) == Success(1020.1);
    var sold := fund.Sell(savings, now);
    assert sold.Success? && savings.balance == 3020.1;
    assert sold.value.View().description == "Venda de investimento " + "Fundos";
    assert fund.CalculateValue(now + Days(365)) == Success(0.0);
    assert ana.Balances() == [2000.0][0 := 2000.0 + 1020.1];
    assert ana.Holdings() == [h][0 := h.(principal := 0.0)];
    assert ana.GetNetWorth(now) == Success(3020.1);
  }

  /** The update test: amount, category and description replaced. Then an
      update whose second attribute is an unknown code: it raises, and
      the amount set before it stays. */
  method UpdateScenario(now: int)
  {
    var created := Transaction.Create(150.0, 3, "Transferência bancária", now);
    assert created.Success?;
    var t := created.value;
    PatchExample(now);
    var error := t.Update([Amount(200.0), Category(1), Description("Pagamento de fatura")]);
    assert error == None;
    assert t.View() == Fields(200.0, now, "Pagamento", "Pagamento de fatura");

    var attrs := [Amount(5.0), Category(99), Description("x")];
    PatchStopsAtInvalid(t.View(), attrs, 1);
    assert attrs[..1] == [Amount(5.0)];
    error := t.Update(attrs);
    assert error == Some(InvalidCategory);
    assert t.View() == Fields(5.0, now, "Pagamento", "Pagamento de fatura");
  }
}

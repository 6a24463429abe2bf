/**
 * The payment strategy demo: three PaymentStrategy classes that each render
 * a "Paid $..." line for an amount, and a PaymentContext that holds at most
 * one current strategy and dispatches `executePayment` to it. The amount, a
 * double printed through an ostream, is taken as its already formatted text.
 */
module Payment {
  import opened Wrappers
  import opened CppString

  /** The three concrete strategies with the payer data each was constructed with. */
  datatype Strategy =
    | CreditCardPayment(cardNumber: Str)
    | PayPalPayment(email: Str)
    | CryptoPayment(walletAddress: Str)

  /** What one `pay` or `executePayment` call writes to standard output. */
  datatype Outcome =
    | Printed(line: string)
      /** std::out_of_range escaped after `written` had already been inserted into the stream. */
    | OutOfRangeThrown(written: string)

  /** The line executePayment writes when no strategy is set. */
  const NoStrategyLine: string := "No Payment strategy set !\n"

  /** The payment method named in each strategy's line. */
  function Label(s: Strategy): string
  {
    match s
    case CreditCardPayment(_) => "Credit Card"
    case PayPalPayment(_) => "PayPal"
    case CryptoPayment(_) => "Crypto wallet"
  }

  /**
   * The payer identifier a strategy shows: the last four characters of the
   * card number (None when substr throws because the number is shorter than
   * four), the whole e-mail, or the first eight characters of the wallet
   * address followed by "...".
   */
  function Identifier(s: Strategy): (r: Option<string>)
    ensures s.CreditCardPayment? ==> (r.Some? <==> |s.cardNumber| >= 4)
    ensures s.CreditCardPayment? && r.Some? ==>
      |r.value| == 4 && s.cardNumber == s.cardNumber[..|s.cardNumber| - 4] + r.value
    ensures s.PayPalPayment? ==> r == Some(s.email)
    ensures s.CryptoPayment? ==>
      r == Some(s.walletAddress[..Min(8, |s.walletAddress|)] + "...")
  {
    match s
    case CreditCardPayment(card) =>
      Substr(card, SizeSub(|card|, 4), Npos)
    case PayPalPayment(email) =>
      Some(email)
    case CryptoPayment(wallet) =>
      var shown := Substr(wallet, 0, 8);
      if shown.Some? then Some(shown.value + "...") else None
  }

  /** The text a strategy writes before the identifier. */
  function Head(s: Strategy, amount: string): string
  {
    "Paid $" + amount + " using " + Label(s) + ": "
  }

  /**
   * PaymentStrategy::pay. The operands of `<<` are evaluated left to right,
   * so when the card number is too short the head of the line has already
   * been inserted into the stream when substr throws.
   */
  function Pay(s: Strategy, amount: string): (o: Outcome)
    ensures o.Printed? <==> !(s.CreditCardPayment? && |s.cardNumber| < 4)
    ensures o.Printed? ==> Identifier(s).Some? && o.line == Head(s, amount) + Identifier(s).value + "\n"
    ensures o.OutOfRangeThrown? ==> o.written == "Paid $" + amount + " using Credit Card: "
  {
    match Identifier(s)
    case Some(shown) => Printed(Head(s, amount) + shown + "\n")
    case None => OutOfRangeThrown(Head(s, amount))
  }

  /** Two card numbers with the same last four characters pay with identical lines. */
  lemma CardRevealsOnlyLastFour(card1: Str, card2: Str, amount: string)
    requires |card1| >= 4 && |card2| >= 4
    requires card1[|card1| - 4..] == card2[|card2| - 4..]
    ensures Pay(CreditCardPayment(card1), amount) == Pay(CreditCardPayment(card2), amount)
  {
  }

  /** Two wallets that agree on their first eight characters pay with identical lines. */
  lemma WalletRevealsOnlyFirstEight(wallet1: Str, wallet2: Str, amount: string)
    requires |wallet1| >= 8 && |wallet2| >= 8
    requires wallet1[..8] == wallet2[..8]
    ensures Pay(CryptoPayment(wallet1), amount) == Pay(CryptoPayment(wallet2), amount)
  {
  }

  /** The card line ends with the last four characters of the card number. */
  lemma CardLineEndsWithLastFour(card: Str, amount: string)
    requires |card| >= 4
    ensures var o := Pay(CreditCardPayment(card), amount);
      o.Printed? && o.line[|o.line| - 5..] == card[|card| - 4..] + "\n"
  {
  }

  /** The message for a missing strategy can never be mistaken for a payment. */
  lemma {:induction false} NoStrategyLineIsNotAPayment(s: Strategy, amount: string)
    ensures Pay(s, amount) != Printed(NoStrategyLine)
    ensures Pay(s, amount) != OutOfRangeThrown(NoStrategyLine)
  {
    var o := Pay(s, amount);
    assert Head(s, amount)[0] == 'P';
    if o.Printed? {
      assert o.line[0] == 'P';
    } else {
      assert o.written[0] == 'P';
    }
    assert NoStrategyLine[0] == 'N';
  }

  /** The identifier the demo driver's card number shows. */
  lemma DemoCardIdentifier()
    ensures Identifier(CreditCardPayment("2322-1232-2231-0292")) == Some("0292")
  {
    var card: Str := "2322-1232-2231-0292";
    assert card[|card| - 4..] == "0292";
  }

  /** The line the demo driver's card payment assembles around the identifier. */
  lemma DemoCardLine(head: string)
    requires head == Head(CreditCardPayment("2322-1232-2231-0292"), "100.2")
    ensures head + "0292" + "\n" == "Paid $100.2 using Credit Card: 0292\n"
  {
    assert head == "Paid $100.2 using Credit Card: ";
  }

  /** The card payment of the demo driver, with the amount as an ostream prints it. */
  lemma DemoCardPayment()
    ensures Pay(CreditCardPayment("2322-1232-2231-0292"), "100.2")
         == Printed("Paid $100.2 using Credit Card: 0292\n")
  {
    var s := CreditCardPayment("2322-1232-2231-0292");
    DemoCardIdentifier();
    DemoCardLine(Head(s, "100.2"));
  }

  /** The identifier the demo driver's wallet shows. */
  lemma DemoWalletIdentifier()
    ensures Identifier(CryptoPayment("0x29297562202672020220010")) == Some("0x292975...")
  {
    var wallet: Str := "0x29297562202672020220010";
    assert Min(8, |wallet|) == 8;
    assert wallet[..8] + "..." == "0x292975...";
  }

  /** The line the demo driver's crypto payment assembles around the identifier. */
  lemma DemoCryptoLine(head: string)
    requires head == Head(CryptoPayment("0x29297562202672020220010"), "2921.63")
    ensures head + "0x292975..." + "\n" == "Paid $2921.63 using Crypto wallet: 0x292975...\n"
  {
    assert head == "Paid $2921.63 using Crypto wallet: ";
  }

  /** The crypto payment of the demo driver, with the amount as an ostream prints it. */
  lemma DemoCryptoPayment()
    ensures Pay(CryptoPayment("0x29297562202672020220010"), "2921.63")
         == Printed("Paid $2921.63 using Crypto wallet: 0x292975...\n")
  {
    var s := CryptoPayment("0x29297562202672020220010");
    DemoWalletIdentifier();
    DemoCryptoLine(Head(s, "2921.63"));
  }

  /** A card number shorter than four characters makes pay throw std::out_of_range. */
  lemma ShortCardThrows()
    ensures Pay(CreditCardPayment("123"), "5") == OutOfRangeThrown("Paid $5 using Credit Card: ")
    ensures Pay(CreditCardPayment(""), "5") == OutOfRangeThrown("Paid $5 using Credit Card: ")
  {
  }

  /**
   * Lengths count bytes: "12" followed by the two UTF-8 bytes of an e-acute
   * is four C++ chars long, so the whole number is shown rather than thrown on.
   */
  lemma Utf8CardCountsBytes()
    ensures Identifier(CreditCardPayment("12\U{C3}\U{A9}")) == Some("12\U{C3}\U{A9}")
  {
    var card: Str := "12\U{C3}\U{A9}";
    assert card[|card| - 4..] == card;
  }

  /** PaymentContext: the current strategy, or none. */
  class PaymentContext {
    var strategy: Option<Strategy>

    /** A fresh context has no strategy. */
    constructor ()
      ensures strategy == None
    {
      strategy := None;
    }

    /** setStrategy replaces the current strategy; a null pointer clears it. */
    method SetStrategy(newStrategy: Option<Strategy>)
      modifies this
      ensures strategy == newStrategy
    {
      strategy := newStrategy;
    }

    /**
     * executePayment: reports a missing strategy, or dispatches once to the
     * current strategy; the context itself is left as it was.
     */
    method ExecutePayment(amount: string) returns (o: Outcome)
      ensures strategy.None? ==> o == Printed(NoStrategyLine)
      ensures strategy.Some? ==> o == Pay(strategy.value, amount)
    {
      if strategy.Some? {
        o := Pay(strategy.value, amount);
      } else {
        o := Printed(NoStrategyLine);
      }
    }
  }

  /**
   * A fresh context reports that no strategy is set; after two setStrategy
   * calls the most recently set strategy is the one executePayment dispatches to.
   */
  method LastStrategyWins(first: Strategy, second: Strategy, amount: string) returns (before: Outcome, o: Outcome)
    ensures before == Printed(NoStrategyLine)
    ensures o == Pay(second, amount)
  {
    var context := new PaymentContext();
    before := context.ExecutePayment(amount);
    context.SetStrategy(Some(first));
    context.SetStrategy(Some(second));
    o := context.ExecutePayment(amount);
  }
}

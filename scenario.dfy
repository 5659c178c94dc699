/** Concrete sessions of the simulator, run on the session machine and on
    the account objects. */
module Scenarios {
  import opened Accounts
  import opened Registry
  import opened Session
  import opened MenuLoop

  /** Log into 123, deposit 100, transfer 40 to 456, log out; log into 456,
      try to withdraw 1000, log out; log into 123, change its passcode to
      999, log out. */
  const Walkthrough: seq<Token> :=
    [Int(2), Int(123), Int(123), Int(2), Int(100), Int(4), Int(456), Int(40), Int(6),
     Int(2), Int(456), Int(456), Int(3), Int(1000), Int(6),
     Int(2), Int(123), Int(123), Int(5), Int(999), Int(6)]

  const Seeded: seq<AccountRecord> := [AccountRecord(123, 123, 0.0), AccountRecord(456, 456, 0.0)]
  const Funded: seq<AccountRecord> := [AccountRecord(123, 123, 60.0), AccountRecord(456, 456, 40.0)]
  const Changed: seq<AccountRecord> := [AccountRecord(123, 999, 60.0), AccountRecord(456, 456, 40.0)]

  /** The walkthrough leaves 60 in account 123 and 40 in account 456 (the
      withdrawal of 1000 is refused), and afterwards 123 opens with 999 but
      no longer with 123. */
  lemma WalkthroughOutcome()
    ensures Run(Initial(), Walkthrough) == Machine(Changed, MainMenu, 0, 0)
    ensures FirstWithCredentials(Run(Initial(), Walkthrough).accounts, 123, 123) == None
    ensures FirstWithCredentials(Run(Initial(), Walkthrough).accounts, 123, 999) == Some(0)
  {
    var first := [Int(2), Int(123), Int(123), Int(2), Int(100), Int(4), Int(456), Int(40), Int(6)];
    var second := [Int(2), Int(456), Int(456), Int(3), Int(1000), Int(6)];
    var third := [Int(2), Int(123), Int(123), Int(5), Int(999), Int(6)];
    assert Walkthrough == first + (second + (third + []));
    FirstVisitTo123(second + (third + []));
    VisitTo456(third + []);
    SecondVisitTo123([]);
    assert Changed[1..] == [AccountRecord(456, 456, 40.0)];
    assert FirstWithCredentials(Changed, 123, 999) == Some(0);
  }

  /** Run takes one step at a time. */
  lemma Unfold(m: Machine, input: seq<Token>)
    requires !m.mode.Terminated? && ModeInRange(m) && input != []
    ensures Run(m, input) == Run(Step(m, input).machine, Step(m, input).rest)
  {
  }

  /** The machine logged into 123 after depositing 100. */
  function Deposited100(): Machine
  {
    Machine([AccountRecord(123, 123, 100.0), AccountRecord(456, 456, 0.0)], LoggedIn(0), 0, 0)
  }

  /** Log into 123, deposit 100, transfer 40 to 456, log out. */
  lemma FirstVisitTo123(rest: seq<Token>)
    ensures Run(Initial(), [Int(2), Int(123), Int(123), Int(2), Int(100), Int(4), Int(456), Int(40), Int(6)] + rest)
         == Run(Machine(Funded, MainMenu, 0, 0), rest)
  {
    var s0 := [Int(2), Int(123), Int(123), Int(2), Int(100), Int(4), Int(456), Int(40), Int(6)] + rest;
    var s2 := [Int(4), Int(456), Int(40), Int(6)] + rest;
    assert s0 == [Int(2), Int(123), Int(123), Int(2), Int(100)] + s2;
    LogIntoAndDeposit(s2);
    TransferAndLogOut(rest);
  }

  /** Log into 123 and deposit 100. */
  lemma LogIntoAndDeposit(rest: seq<Token>)
    ensures Run(Initial(), [Int(2), Int(123), Int(123), Int(2), Int(100)] + rest) == Run(Deposited100(), rest)
  {
    var m0 := Initial();
    var in123 := m0.(mode := LoggedIn(0));
    var s0 := [Int(2), Int(123), Int(123), Int(2), Int(100)] + rest;
    var s1 := [Int(2), Int(100)] + rest;
    assert s0[3..] == s1 && s1[2..] == rest;
    assert Step(m0, s0) == Stepped(in123, s1);
    assert Step(in123, s1) == Stepped(Deposited100(), rest);
    Unfold(m0, s0);
    Unfold(in123, s1);
  }

  /** Transfer 40 from 123 to 456 and log out. */
  lemma TransferAndLogOut(rest: seq<Token>)
    ensures Run(Deposited100(), [Int(4), Int(456), Int(40), Int(6)] + rest) == Run(Machine(Funded, MainMenu, 0, 0), rest)
  {
    var deposited := Deposited100();
    var transferred := deposited.(accounts := Funded);
    var s2 := [Int(4), Int(456), Int(40), Int(6)] + rest;
    var s3 := [Int(6)] + rest;
    assert s2[3..] == s3 && s3[1..] == rest;
    assert FirstWithNumber(deposited.accounts, 456) == Some(1) by {
      assert deposited.accounts[1..] == [AccountRecord(456, 456, 0.0)];
    }
    assert Step(deposited, s2) == Stepped(transferred, s3);
    assert Step(transferred, s3) == Stepped(Machine(Funded, MainMenu, 0, 0), rest);
    Unfold(deposited, s2);
    Unfold(transferred, s3);
  }

  /** Log into 456, fail to withdraw 1000, log out. */
  lemma VisitTo456(rest: seq<Token>)
    ensures Run(Machine(Funded, MainMenu, 0, 0), [Int(2), Int(456), Int(456), Int(3), Int(1000), Int(6)] + rest)
         == Run(Machine(Funded, MainMenu, 0, 0), rest)
  {
    var out := Machine(Funded, MainMenu, 0, 0);
    var in456 := out.(mode := LoggedIn(1));
    var s0 := [Int(2), Int(456), Int(456), Int(3), Int(1000), Int(6)] + rest;
    var s1 := [Int(3), Int(1000), Int(6)] + rest;
    var s2 := [Int(6)] + rest;
    assert s0[3..] == s1 && s1[2..] == s2 && s2[1..] == rest;
    assert FirstWithCredentials(Funded, 456, 456) == Some(1) by {
      assert Funded[1..] == [AccountRecord(456, 456, 40.0)];
    }
    assert Step(out, s0) == Stepped(in456, s1);
    assert Step(in456, s1) == Stepped(in456, s2);
    assert Step(in456, s2) == Stepped(out, rest);
    Unfold(out, s0);
    Unfold(in456, s1);
    Unfold(in456, s2);
  }

  /** Log into 123, change its passcode to 999, log out. */
  lemma SecondVisitTo123(rest: seq<Token>)
    ensures Run(Machine(Funded, MainMenu, 0, 0), [Int(2), Int(123), Int(123), Int(5), Int(999), Int(6)] + rest)
         == Run(Machine(Changed, MainMenu, 0, 0), rest)
  {
    var out := Machine(Funded, MainMenu, 0, 0);
    var back := out.(mode := LoggedIn(0));
    var s0 := [Int(2), Int(123), Int(123), Int(5), Int(999), Int(6)] + rest;
    var s1 := [Int(5), Int(999), Int(6)] + rest;
    var s2 := [Int(6)] + rest;
    assert s0[3..] == s1 && s1[2..] == s2 && s2[1..] == rest;
    assert Step(out, s0) == Stepped(back, s1);
    assert Step(back, s1) == Stepped(back.(accounts := Changed), s2);
    assert Step(back.(accounts := Changed), s2) == Stepped(Machine(Changed, MainMenu, 0, 0), rest);
    Unfold(out, s0);
    Unfold(back, s1);
    Unfold(back.(accounts := Changed), s2);
  }

  /** A transfer of -50 from 123 to 456 goes through, because its sign is
      never checked: the recipient loses 50 and the sender gains 50. */
  lemma NegativeTransferGoesThrough()
    ensures Run(Initial(), [Int(2), Int(123), Int(123), Int(4), Int(456), Dec(-50.0)]).accounts ==
      [AccountRecord(123, 123, 50.0), AccountRecord(456, 456, -50.0)]
  {
    var input := [Int(2), Int(123), Int(123), Int(4), Int(456), Dec(-50.0)];
    var m0 := Initial();
    var loggedIn := m0.(mode := LoggedIn(0));
    assert FirstWithCredentials(m0.accounts, 123, 123) == Some(0);
    assert Step(m0, input) == Stepped(loggedIn, input[3..]);
    var moved := loggedIn.(accounts := [AccountRecord(123, 123, 50.0), AccountRecord(456, 456, -50.0)]);
    assert FirstWithNumber(loggedIn.accounts, 456) == Some(1) by {
      assert loggedIn.accounts[1..] == [AccountRecord(456, 456, 0.0)];
    }
    assert Step(loggedIn, input[3..]) == Stepped(moved, []);
    assert Run(m0, input) == Run(loggedIn, input[3..]) == Run(moved, []);
  }

  /** The walkthrough on the account objects themselves. */
  method AccountWalkthrough() returns (balance123: real, balance456: real, opensWith123: bool, opensWith999: bool)
    ensures balance123 == 60.0 && balance456 == 40.0
    ensures !opensWith123 && opensWith999
  {
    var a := new Account(123, 123);
    var b := new Account(456, 456);
    a.Deposit(100.0);
    var transferred := a.Transfer(40.0, b);
    var withdrawn := b.Withdraw(1000.0);
    a.ChangePasscode(999);
    balance123, balance456 := a.balance, b.balance;
    opensWith123, opensWith999 := a.ValidatePasscode(123), a.ValidatePasscode(999);
  }

  /** The walkthrough fed to the whole program, from its start. */
  method SessionWalkthrough() returns (balances: seq<real>)
    ensures balances == [60.0, 40.0]
  {
    var atm := new Atm();
    atm.Run(Walkthrough);
    WalkthroughOutcome();
    balances := [atm.bank.accounts[0].balance, atm.bank.accounts[1].balance];
  }
}

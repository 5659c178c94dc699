/** The account entity of the ATM simulator: one bank account with an
    immutable number, a passcode and a balance.

    Money is a `real` (the source keeps it in a `double`); see README.md. */
module Accounts {

  /** The observable state of one account, as a value. */
  datatype AccountRecord = AccountRecord(number: int, passcode: int, balance: real)

  /** The passcode check: does `input` open this account? */
  predicate Accepts(a: AccountRecord, input: int)
  {
    a.passcode == input
  }

  /** Does the balance cover an outgoing `amount`? The only guard the
      entity itself applies to withdrawals and transfers. */
  predicate Covers(a: AccountRecord, amount: real)
  {
    amount <= a.balance
  }

  /** The account after a deposit: the amount is added without any check. */
  function Deposited(a: AccountRecord, amount: real): (r: AccountRecord)
    ensures r.number == a.number && r.passcode == a.passcode
    ensures r.balance - a.balance == amount
  {
    a.(balance := a.balance + amount)
  }

  /** The account after a withdrawal attempt: debited when covered,
      otherwise left as it was. */
  function Withdrawn(a: AccountRecord, amount: real): (r: AccountRecord)
    ensures r.number == a.number && r.passcode == a.passcode
    ensures Covers(a, amount) ==> a.balance - r.balance == amount
    ensures !Covers(a, amount) ==> r == a
    ensures 0.0 <= a.balance || Covers(a, amount) ==> 0.0 <= r.balance
  {
    if Covers(a, amount) then a.(balance := a.balance - amount) else a
  }

  /** The sender and the recipient after a transfer attempt between two
      distinct accounts. */
  function Transferred(sender: AccountRecord, recipient: AccountRecord, amount: real): (r: (AccountRecord, AccountRecord))
    ensures r.0.number == sender.number && r.0.passcode == sender.passcode
    ensures r.1.number == recipient.number && r.1.passcode == recipient.passcode
    // a covered amount leaves the sender and reaches the recipient exactly
    ensures Covers(sender, amount) ==>
      r.0.balance == sender.balance - amount && r.1.balance == recipient.balance + amount
    // money is neither created nor destroyed
    ensures r.0.balance + r.1.balance == sender.balance + recipient.balance
    // the sender can never be overdrawn by it
    ensures Covers(sender, amount) ==> 0.0 <= r.0.balance
    ensures 0.0 <= sender.balance ==> 0.0 <= r.0.balance
    ensures !Covers(sender, amount) ==> r == (sender, recipient)
  {
    if Covers(sender, amount) then
      (sender.(balance := sender.balance - amount), Deposited(recipient, amount))
    else
      (sender, recipient)
  }

  /** The account after its passcode is overwritten. */
  function WithPasscode(a: AccountRecord, newPasscode: int): (r: AccountRecord)
    ensures r.number == a.number && r.balance == a.balance
    ensures forall p :: Accepts(r, p) <==> p == newPasscode
  {
    a.(passcode := newPasscode)
  }

  /** Depositing and then withdrawing the same positive amount restores the
      account exactly when its balance was not negative to begin with. */
  lemma DepositThenWithdraw(a: AccountRecord, amount: real)
    requires 0.0 < amount
    ensures Withdrawn(Deposited(a, amount), amount) == a <==> 0.0 <= a.balance
  {
  }

  /** A covered withdrawal is undone by depositing the same amount. */
  lemma WithdrawThenDeposit(a: AccountRecord, amount: real)
    requires Covers(a, amount)
    ensures Deposited(Withdrawn(a, amount), amount) == a
  {
  }

  /** After a passcode change the new passcode opens the account and the old
      one no longer does, unless the two are equal. */
  lemma ChangedPasscode(a: AccountRecord, newPasscode: int)
    ensures Accepts(WithPasscode(a, newPasscode), newPasscode)
    ensures Accepts(WithPasscode(a, newPasscode), a.passcode) <==> a.passcode == newPasscode
  {
  }

  /** The transfer does not check the sign of its amount: a covered negative
      amount takes money from the recipient. */
  lemma NegativeTransferDebitsRecipient(sender: AccountRecord, recipient: AccountRecord, amount: real)
    requires amount < 0.0 && Covers(sender, amount)
    ensures Transferred(sender, recipient, amount).1.balance < recipient.balance
    ensures Transferred(sender, recipient, amount).0.balance > sender.balance
  {
  }

  /** One account object of the simulator (an instance of the source's
      ATMSimulator class). */
  class Account {
    const accountNumber: int
    var passcode: int
    var balance: real

    /** A new account: the given number and passcode, balance 0. */
    constructor (accountNumber: int, passcode: int)
      ensures Record() == AccountRecord(accountNumber, passcode, 0.0)
    {
      this.accountNumber := accountNumber;
      this.passcode := passcode;
      this.balance := 0.0;
    }

    /** The account's state as a value. */
    function Record(): AccountRecord
      reads this
    {
      AccountRecord(accountNumber, passcode, balance)
    }

    predicate ValidatePasscode(inputPasscode: int)
      reads this
    {
      passcode == inputPasscode
    }

    method AddBalance(amount: real)
      modifies this`balance
      ensures balance == old(balance) + amount
    {
      balance := balance + amount;
    }

    method SubtractBalance(amount: real)
      modifies this`balance
      ensures balance == old(balance) - amount
    {
      balance := balance - amount;
    }

    method Deposit(amount: real)
      modifies this`balance
      ensures Record() == Deposited(old(Record()), amount)
    {
      AddBalance(amount);
    }

    /** `ok` is the outcome the source reports: withdrawn, or "invalid amount". */
    method Withdraw(amount: real) returns (ok: bool)
      modifies this`balance
      ensures ok <==> Covers(old(Record()), amount)
      ensures Record() == Withdrawn(old(Record()), amount)
    {
      ok := amount <= balance;
      if ok {
        SubtractBalance(amount);
      }
    }

    /** Debits this account and credits `recipient`, which may be this very
        object: the entity does not forbid that, and then nothing changes. */
    method Transfer(amount: real, recipient: Account) returns (ok: bool)
      modifies this`balance, recipient`balance
      ensures ok <==> Covers(old(Record()), amount)
      ensures recipient != this ==>
        (Record(), recipient.Record()) == Transferred(old(Record()), old(recipient.Record()), amount)
      ensures recipient == this ==> Record() == old(Record())
    {
      ok := amount <= balance;
      if ok {
        SubtractBalance(amount);
        recipient.AddBalance(amount);
      }
    }

    method ChangePasscode(newPasscode: int)
      modifies this`passcode
      ensures Record() == WithPasscode(old(Record()), newPasscode)
    {
      passcode := newPasscode;
    }
  }
}

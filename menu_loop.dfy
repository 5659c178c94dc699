/** The simulator's main method: the main-menu loop, the account-menu loop
    of a logged-in account and the shared invalid-input counter, working on
    the account objects of the registry. Each handler is proved to do what
    the session machine of session.dfy prescribes. */
module MenuLoop {
  import opened Accounts
  import opened Registry
  import opened Session

  /** Which loop of the source is running: the main menu, the account menu
      of `currentAccount`, or neither (the main loop has ended). */
  datatype State = AtMainMenu | AtAccountMenu(currentAccount: Account) | Exited

  class Atm {
    const bank: Bank
    var state: State
    var invalidInputCount: int
    /** How many times the lockout pause (the source's 10-second sleep) ran. */
    var pauses: nat
    /** Position of the logged-in account in the registry. */
    ghost var current: nat
    /** The objects the session uses: itself, the registry and its accounts. */
    ghost var Repr: set<object>

    ghost predicate Valid()
      reads this, bank
    {
      this in Repr && bank in Repr && (forall a :: a in bank.accounts ==> a in Repr) &&
      bank.Valid() &&
      0 <= invalidInputCount < MAX_INVALID_INPUTS &&
      (state.AtAccountMenu? ==> current < |bank.accounts| && bank.accounts[current] == state.currentAccount)
    }

    /** The session as a value. */
    ghost function View(): (v: Machine)
      reads this, bank, bank.accounts
      ensures Valid() ==> Inv(v)
    {
      Machine(Records(bank.accounts),
              match state
              case AtMainMenu => MainMenu
              case AtAccountMenu(_) => LoggedIn(current)
              case Exited => Terminated,
              invalidInputCount, pauses)
    }

    /** Program start: the two demo accounts, the main menu, no invalid input. */
    constructor ()
      ensures Valid() && View() == Initial()
      ensures fresh(Repr)
    {
      var registry := new Bank();
      bank := registry;
      Repr := {this, registry} + set a | a in registry.accounts;
      state := AtMainMenu;
      invalidInputCount := 0;
      pauses := 0;
      current := 0;
    }

    /** The handling of a malformed token, the same at every prompt: count it,
        and at the limit pause and reset the count. */
    method CountInvalidInput()
      requires Valid()
      modifies this`invalidInputCount, this`pauses
      ensures Valid() && View() == Rejected(old(View()))
    {
      invalidInputCount := invalidInputCount + 1;
      if invalidInputCount >= MAX_INVALID_INPUTS {
        pauses := pauses + 1;
        invalidInputCount := 0;
      }
    }

    /** Main-menu options 1 and 2: read an account number and a passcode, then
        create the account or log in. */
    method HandleCredentials(option: int, input: seq<Token>) returns (rest: seq<Token>)
      requires Valid() && state.AtMainMenu? && input != []
      modifies this, bank
      ensures Valid() && fresh(Repr - old(Repr))
      ensures Stepped(View(), rest) == CredentialsStep(old(View()), option, input)
    {
      if |input| < 2 {
        return [];
      }
      var number := ReadInt(input[1]);
      if number.None? {
        CountInvalidInput();
        return input[2..];
      }
      if |input| < 3 {
        return [];
      }
      var passcode := ReadInt(input[2]);
      if passcode.None? {
        CountInvalidInput();
        return input[3..];
      }
      rest := input[3..];
      if option == 1 {
        CreateAccount(number.value, passcode.value);
      } else {
        LogIn(number.value, passcode.value);
      }
    }

    /** Main-menu option 1 once both integers are read. */
    method CreateAccount(number: int, passcode: int)
      requires Valid() && state.AtMainMenu?
      modifies this`Repr, bank
      ensures Valid() && fresh(Repr - old(Repr))
      ensures View() == old(View()).(accounts := Created(old(View()).accounts, number, passcode))
    {
      var created := bank.Create(number, passcode);
      Repr := Repr + set a | a in bank.accounts;
    }

    /** Main-menu option 2 once both integers are read: the account menu of
        the first matching account, or the main menu again. */
    method LogIn(number: int, passcode: int)
      requires Valid() && state.AtMainMenu?
      modifies this`state, this`current
      ensures Valid()
      ensures View() == match FirstWithCredentials(old(View()).accounts, number, passcode)
                        case None => old(View())
                        case Some(i) => old(View()).(mode := LoggedIn(i))
    {
      var account := bank.Login(number, passcode);
      if account != null {
        state := AtAccountMenu(account);
        current := FirstWithCredentials(Records(bank.accounts), number, passcode).value;
      }
    }

    /** One choice at the main menu. */
    method HandleMainMenu(input: seq<Token>) returns (rest: seq<Token>)
      requires Valid() && state.AtMainMenu? && input != []
      modifies this, bank
      ensures Valid() && fresh(Repr - old(Repr))
      ensures Stepped(View(), rest) == MainMenuStep(old(View()), input)
    {
      var option := ReadInt(input[0]);
      if option.None? {
        CountInvalidInput();
        return input[1..];
      }
      if option.value == 1 || option.value == 2 {
        rest := HandleCredentials(option.value, input);
      } else {
        rest := input[1..];
        if option.value == 3 {
          state := Exited;
        }
      }
    }

    /** Account-menu options 2 (deposit) and 3 (withdraw): read an amount and
        apply it to the logged-in account when it is strictly positive. */
    method HandleAmount(option: int, input: seq<Token>) returns (rest: seq<Token>)
      requires Valid() && state.AtAccountMenu? && input != []
      modifies this`invalidInputCount, this`pauses, state.currentAccount`balance
      ensures Valid()
      ensures Stepped(View(), rest) == AmountStep(old(View()), current, option, input)
    {
      if |input| < 2 {
        return [];
      }
      rest := input[2..];
      var amount := ReadAmount(input[1]);
      if amount.None? {
        CountInvalidInput();
        return;
      }
      if amount.value > 0.0 {
        var account := state.currentAccount;
        ghost var before := Records(bank.accounts);
        if option == 2 {
          account.Deposit(amount.value);
        } else {
          var withdrawn := account.Withdraw(amount.value);
        }
        assert Records(bank.accounts) == before[current := account.Record()];
      }
    }

    /** Account-menu option 4: read the recipient's number, refuse an unknown
        recipient and the logged-in account itself, then read an amount and
        transfer it without checking its sign. */
    method HandleTransfer(input: seq<Token>) returns (rest: seq<Token>)
      requires Valid() && state.AtAccountMenu? && input != []
      modifies this`invalidInputCount, this`pauses, bank.accounts
      ensures Valid()
      ensures Stepped(View(), rest) == TransferStep(old(View()), current, input)
    {
      if |input| < 2 {
        return [];
      }
      var number := ReadInt(input[1]);
      rest := input[2..];
      if number.None? {
        CountInvalidInput();
        return;
      }
      var recipient := bank.FindByNumber(number.value);
      if recipient == null || recipient == state.currentAccount {
        return;
      }
      if |input| < 3 {
        return [];
      }
      rest := input[3..];
      var amount := ReadAmount(input[2]);
      if amount.None? {
        CountInvalidInput();
        return;
      }
      ghost var before := Records(bank.accounts);
      ghost var j := FirstWithNumber(before, number.value).value;
      var transferred := state.currentAccount.Transfer(amount.value, recipient);
      assert Records(bank.accounts) == before[current := bank.accounts[current].Record()][j := recipient.Record()];
    }

    /** Account-menu option 5: read and set a new passcode. */
    method HandlePasscode(input: seq<Token>) returns (rest: seq<Token>)
      requires Valid() && state.AtAccountMenu? && input != []
      modifies this`invalidInputCount, this`pauses, state.currentAccount`passcode
      ensures Valid()
      ensures Stepped(View(), rest) == PasscodeStep(old(View()), current, input)
    {
      if |input| < 2 {
        return [];
      }
      rest := input[2..];
      var newPasscode := ReadInt(input[1]);
      if newPasscode.None? {
        CountInvalidInput();
        return;
      }
      ghost var before := Records(bank.accounts);
      state.currentAccount.ChangePasscode(newPasscode.value);
      assert Records(bank.accounts) == before[current := state.currentAccount.Record()];
    }

    /** One choice at the account menu. */
    method HandleAccountMenu(input: seq<Token>) returns (rest: seq<Token>)
      requires Valid() && state.AtAccountMenu? && input != []
      modifies this, bank.accounts
      ensures Valid() && Repr == old(Repr)
      ensures Stepped(View(), rest) == AccountMenuStep(old(View()), input)
    {
      var option := ReadInt(input[0]);
      if option.None? {
        CountInvalidInput();
        return input[1..];
      }
      if option.value == 2 || option.value == 3 {
        rest := HandleAmount(option.value, input);
      } else if option.value == 4 {
        rest := HandleTransfer(input);
      } else if option.value == 5 {
        rest := HandlePasscode(input);
      } else {
        rest := input[1..];
        if option.value == 6 {
          state := AtMainMenu;
        }
      }
    }

    /** One choice, in whichever menu is showing. */
    method HandleChoice(input: seq<Token>) returns (rest: seq<Token>)
      requires Valid() && !state.Exited? && input != []
      modifies Repr
      ensures Valid() && fresh(Repr - old(Repr))
      ensures Stepped(View(), rest) == Session.Step(old(View()), input)
    {
      if state.AtMainMenu? {
        rest := HandleMainMenu(input);
      } else {
        rest := HandleAccountMenu(input);
      }
    }

    /** The program on a whole input: handle choices until Exit is chosen or
        the input is used up. */
    method Run(input: seq<Token>)
      requires Valid()
      modifies Repr
      ensures Valid() && fresh(Repr - old(Repr))
      ensures View() == Session.Run(old(View()), input)
    {
      var rest := input;
      while rest != [] && !state.Exited?
        invariant Valid() && fresh(Repr - old(Repr))
        invariant Session.Run(View(), rest) == Session.Run(old(View()), input)
        decreases |rest|
      {
        rest := HandleChoice(rest);
      }
    }
  }
}

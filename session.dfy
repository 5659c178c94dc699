/** The menu-driven session of the simulator as a state machine over values:
    the main menu, the account menu of a logged-in account, and the end of
    the program, together with the process-wide invalid-input counter.

    Console input is a sequence of tokens; one step consumes the tokens one
    menu choice reads. The imperative loop that drives the real objects is
    in menu_loop.dfy and is proved to follow this machine. */
module Session {
  import opened Accounts
  import opened Registry

  /** One token of console input, classified the way the scanner reads it:
      an integer (accepted by both integer and decimal reads), a decimal
      that is not an integer (accepted only by decimal reads), or anything
      else (accepted by neither). */
  datatype Token = Int(n: int) | Dec(x: real) | Bad

  /** Reading an integer (the scanner's nextInt). */
  function ReadInt(t: Token): (r: Option<int>)
    ensures r.Some? <==> t.Int?
    ensures r.Some? ==> t == Int(r.value)
  {
    match t
    case Int(n) => Some(n)
    case _ => None
  }

  /** Reading an amount of money (the scanner's nextDouble). */
  function ReadAmount(t: Token): (r: Option<real>)
    ensures r.None? <==> t.Bad?
    // every token an integer read accepts is accepted here too, as its value
    ensures ReadInt(t).Some? ==> r == Some(ReadInt(t).value as real)
    ensures t.Dec? ==> r == Some(t.x)
  {
    match t
    case Int(n) => Some(n as real)
    case Dec(x) => Some(x)
    case Bad => None
  }

  const MAX_INVALID_INPUTS: int := 3

  /** Does one more malformed token reach the limit, and so trigger the
      lockout pause? */
  predicate LocksOut(count: int)
  {
    count + 1 >= MAX_INVALID_INPUTS
  }

  /** The invalid-input counter after one more malformed token: counted up,
      and reset to 0 when it reaches the limit. */
  function Penalized(count: int): (r: int)
    ensures 0 <= count ==> 0 <= r < MAX_INVALID_INPUTS
    ensures 0 <= count ==> (r == 0 <==> LocksOut(count))
    ensures !LocksOut(count) ==> r == count + 1
  {
    if LocksOut(count) then 0 else count + 1
  }

  datatype Mode = MainMenu | LoggedIn(current: nat) | Terminated

  /** The whole state of a session: the registry, the menu being shown, the
      invalid-input counter and how many lockout pauses have happened. */
  datatype Machine = Machine(accounts: seq<AccountRecord>, mode: Mode, invalidInputs: int, pauses: nat)

  /** The account a logged-in session works on exists. */
  predicate ModeInRange(m: Machine)
  {
    m.mode.LoggedIn? ==> m.mode.current < |m.accounts|
  }

  /** What every reachable machine satisfies. */
  predicate Inv(m: Machine)
  {
    UniqueNumbers(m.accounts) && 0 <= m.invalidInputs < MAX_INVALID_INPUTS && ModeInRange(m)
  }

  /** The machine at program start: the two demo accounts, the main menu. */
  function Initial(): (r: Machine)
    ensures Inv(r) && r.mode.MainMenu? && r.invalidInputs == 0 && r.pauses == 0
    ensures Total(r.accounts) == 0.0
    ensures |r.accounts| == 2 && forall k :: 0 <= k < |r.accounts| ==> r.accounts[k].balance == 0.0
    ensures FirstWithCredentials(r.accounts, 123, 123) == Some(0)
    ensures FirstWithCredentials(r.accounts, 456, 456) == Some(1)
  {
    Machine([AccountRecord(123, 123, 0.0), AccountRecord(456, 456, 0.0)], MainMenu, 0, 0)
  }

  /** A malformed token: the token is discarded and counted, and the count
      reaching the limit costs a lockout pause and resets it. Nothing else
      changes, and the menu shown stays the same. */
  function Rejected(m: Machine): (r: Machine)
    ensures r.accounts == m.accounts && r.mode == m.mode
    ensures Moved(m, r)
    ensures r.invalidInputs == Penalized(m.invalidInputs)
    ensures 0 <= m.invalidInputs ==> 0 <= r.invalidInputs < MAX_INVALID_INPUTS
    ensures r.pauses == if LocksOut(m.invalidInputs) then m.pauses + 1 else m.pauses
  {
    m.(invalidInputs := Penalized(m.invalidInputs),
       pauses := if LocksOut(m.invalidInputs) then m.pauses + 1 else m.pauses)
  }

  /** The registry only grows: no account is removed or moved and no
      account's number changes. */
  predicate KeepsNumbers(before: seq<AccountRecord>, after: seq<AccountRecord>)
  {
    |before| <= |after| && forall k :: 0 <= k < |before| ==> after[k].number == before[k].number
  }

  /** Did the invalid-input counter or the pause count change? */
  predicate Moved(m: Machine, m': Machine)
  {
    m'.invalidInputs != m.invalidInputs || m'.pauses != m.pauses
  }

  /** Options 1 and 2 meet a token that is not an integer at the account
      number prompt or, after a number, at the passcode prompt. */
  predicate CredentialsMalformed(input: seq<Token>)
  {
    2 <= |input| && (ReadInt(input[1]).None? || (3 <= |input| && ReadInt(input[2]).None?))
  }

  /** Deposit or withdraw meets a token that is not an amount. */
  predicate AmountMalformed(input: seq<Token>)
  {
    2 <= |input| && ReadAmount(input[1]).None?
  }

  /** Transfer from account `i` meets a token that is not an integer at the
      recipient prompt or, once an existing other recipient is named, a
      token that is not an amount at the amount prompt. */
  predicate TransferMalformed(accounts: seq<AccountRecord>, i: nat, input: seq<Token>)
  {
    2 <= |input| &&
    match ReadInt(input[1])
    case None => true
    case Some(number) =>
      match FirstWithNumber(accounts, number)
      case None => false
      case Some(j) => j != i && 3 <= |input| && ReadAmount(input[2]).None?
  }

  /** Change passcode meets a token that is not an integer. */
  predicate PasscodeMalformed(input: seq<Token>)
  {
    2 <= |input| && ReadInt(input[1]).None?
  }

  /** One menu choice meets a malformed token at some prompt it reaches:
      the menu prompt itself, or a prompt of the option chosen there. */
  predicate ChoiceMalformed(m: Machine, input: seq<Token>)
    requires input != []
  {
    ReadInt(input[0]).None? ||
    (m.mode.MainMenu? && (input[0] == Int(1) || input[0] == Int(2)) && CredentialsMalformed(input)) ||
    (m.mode.LoggedIn? &&
      (((input[0] == Int(2) || input[0] == Int(3)) && AmountMalformed(input)) ||
       (input[0] == Int(4) && TransferMalformed(m.accounts, m.mode.current, input)) ||
       (input[0] == Int(5) && PasscodeMalformed(input))))
  }

  /** The machine after one step, and the input not yet read. */
  datatype Stepped = Stepped(machine: Machine, rest: seq<Token>)

  /** `rest` is what remains of `input` after reading a prefix of it. */
  predicate IsRest(rest: seq<Token>, input: seq<Token>)
  {
    |rest| <= |input| && rest == input[|input| - |rest|..]
  }

  /** Options 1 (create) and 2 (login) of the main menu, chosen by
      `input[0]`: two integers, then the registry operation. Input that ends
      early ends the session where it is. */
  function CredentialsStep(m: Machine, option: int, input: seq<Token>): (r: Stepped)
    requires ModeInRange(m) && input != []
    ensures IsRest(r.rest, input) && |r.rest| < |input|
    ensures ModeInRange(r.machine)
    ensures KeepsNumbers(m.accounts, r.machine.accounts)
    // the counter moves exactly on a malformed number or passcode, and then
    // nothing else changes
    ensures Moved(m, r.machine) <==> CredentialsMalformed(input)
    ensures Moved(m, r.machine) ==> r.machine == Rejected(m)
    // with both integers read: option 1 creates the account, option 2 logs
    // into the first account both match, or stays at the menu
    ensures 3 <= |input| && input[1].Int? && input[2].Int? ==>
      r.rest == input[3..] && r.machine.invalidInputs == m.invalidInputs && r.machine.pauses == m.pauses &&
      (option == 1 ==> r.machine == m.(accounts := Created(m.accounts, input[1].n, input[2].n))) &&
      (option != 1 ==>
         r.machine.accounts == m.accounts &&
         r.machine.mode == (match FirstWithCredentials(m.accounts, input[1].n, input[2].n)
                            case None => m.mode
                            case Some(k) => LoggedIn(k)))
  {
    if |input| < 2 then Stepped(m, [])
    else match ReadInt(input[1])
      case None => Stepped(Rejected(m), input[2..])
      case Some(number) =>
        if |input| < 3 then Stepped(m, [])
        else match ReadInt(input[2])
          case None => Stepped(Rejected(m), input[3..])
          case Some(passcode) =>
            if option == 1 then
              Stepped(m.(accounts := Created(m.accounts, number, passcode)), input[3..])
            else match FirstWithCredentials(m.accounts, number, passcode)
              case None => Stepped(m, input[3..])
              case Some(i) => Stepped(m.(mode := LoggedIn(i)), input[3..])
  }

  /** One choice at the main menu. */
  function MainMenuStep(m: Machine, input: seq<Token>): (r: Stepped)
    requires m.mode.MainMenu? && input != []
    ensures IsRest(r.rest, input) && |r.rest| < |input|
    ensures ModeInRange(r.machine)
    ensures KeepsNumbers(m.accounts, r.machine.accounts)
    ensures Moved(m, r.machine) <==> ChoiceMalformed(m, input)
    ensures Moved(m, r.machine) ==> r.machine == Rejected(m)
    // Exit only ends the program, and an unknown option does nothing; both
    // read the choice token alone
    ensures input[0] == Int(3) ==> r == Stepped(m.(mode := Terminated), input[1..])
    ensures input[0].Int? && !(1 <= input[0].n <= 3) ==> r == Stepped(m, input[1..])
  {
    match ReadInt(input[0])
    case None => Stepped(Rejected(m), input[1..])
    case Some(option) =>
      if option == 1 || option == 2 then CredentialsStep(m, option, input)
      else if option == 3 then Stepped(m.(mode := Terminated), input[1..])
      else Stepped(m, input[1..])
  }

  /** Options 2 (deposit) and 3 (withdraw) of the account menu of account
      `i`, chosen by `input[0]`: an amount, refused unless strictly
      positive. */
  function AmountStep(m: Machine, i: nat, option: int, input: seq<Token>): (r: Stepped)
    requires i < |m.accounts| && input != []
    ensures IsRest(r.rest, input) && |r.rest| < |input|
    ensures |r.machine.accounts| == |m.accounts| && r.machine.mode == m.mode
    ensures KeepsNumbers(m.accounts, r.machine.accounts)
    ensures Moved(m, r.machine) <==> AmountMalformed(input)
    ensures Moved(m, r.machine) ==> r.machine == Rejected(m)
    // a non-positive amount is refused; a positive one is applied to account
    // `i` alone
    ensures 2 <= |input| && ReadAmount(input[1]).Some? ==>
      var amount := ReadAmount(input[1]).value;
      r.machine == if amount <= 0.0 then m
                   else m.(accounts := m.accounts[i := if option == 2 then Deposited(m.accounts[i], amount)
                                                       else Withdrawn(m.accounts[i], amount)])
  {
    if |input| < 2 then Stepped(m, [])
    else match ReadAmount(input[1])
      case None => Stepped(Rejected(m), input[2..])
      case Some(amount) =>
        if amount <= 0.0 then Stepped(m, input[2..])
        else
          var a := m.accounts[i];
          var a' := if option == 2 then Deposited(a, amount) else Withdrawn(a, amount);
          Stepped(m.(accounts := m.accounts[i := a']), input[2..])
  }

  /** Option 4 (transfer) of the account menu of account `i`: a recipient
      number, refused when unknown or when it names account `i` itself,
      then an amount whose sign is not checked. */
  function TransferStep(m: Machine, i: nat, input: seq<Token>): (r: Stepped)
    requires i < |m.accounts| && input != []
    ensures IsRest(r.rest, input) && |r.rest| < |input|
    ensures |r.machine.accounts| == |m.accounts| && r.machine.mode == m.mode
    ensures KeepsNumbers(m.accounts, r.machine.accounts)
    ensures Moved(m, r.machine) <==> TransferMalformed(m.accounts, i, input)
    ensures Moved(m, r.machine) ==> r.machine == Rejected(m)
    // an unknown recipient, or account `i` itself, is refused before any
    // amount is read
    ensures 2 <= |input| && input[1].Int? && FirstWithNumber(m.accounts, input[1].n) in {None, Some(i)} ==>
      r == Stepped(m, input[2..])
    // another existing recipient `j` and an amount: `Transferred` on i and j
    ensures 3 <= |input| && input[1].Int? && ReadAmount(input[2]).Some? &&
            FirstWithNumber(m.accounts, input[1].n).Some? && FirstWithNumber(m.accounts, input[1].n) != Some(i) ==>
      var j := FirstWithNumber(m.accounts, input[1].n).value;
      var moved := Transferred(m.accounts[i], m.accounts[j], ReadAmount(input[2]).value);
      r == Stepped(m.(accounts := m.accounts[i := moved.0][j := moved.1]), input[3..])
  {
    if |input| < 2 then Stepped(m, [])
    else match ReadInt(input[1])
      case None => Stepped(Rejected(m), input[2..])
      case Some(number) =>
        match FirstWithNumber(m.accounts, number)
        case None => Stepped(m, input[2..])
        case Some(j) =>
          if j == i then Stepped(m, input[2..])
          else if |input| < 3 then Stepped(m, [])
          else match ReadAmount(input[2])
            case None => Stepped(Rejected(m), input[3..])
            case Some(amount) =>
              var moved := Transferred(m.accounts[i], m.accounts[j], amount);
              Stepped(m.(accounts := m.accounts[i := moved.0][j := moved.1]), input[3..])
  }

  /** Option 5 (change passcode) of the account menu of account `i`. */
  function PasscodeStep(m: Machine, i: nat, input: seq<Token>): (r: Stepped)
    requires i < |m.accounts| && input != []
    ensures IsRest(r.rest, input) && |r.rest| < |input|
    ensures |r.machine.accounts| == |m.accounts| && r.machine.mode == m.mode
    ensures KeepsNumbers(m.accounts, r.machine.accounts)
    ensures Moved(m, r.machine) <==> PasscodeMalformed(input)
    ensures Moved(m, r.machine) ==> r.machine == Rejected(m)
    // an integer read becomes the passcode of account `i`; nothing else changes
    ensures 2 <= |input| && input[1].Int? ==>
      r == Stepped(m.(accounts := m.accounts[i := WithPasscode(m.accounts[i], input[1].n)]), input[2..])
  {
    if |input| < 2 then Stepped(m, [])
    else match ReadInt(input[1])
      case None => Stepped(Rejected(m), input[2..])
      case Some(newPasscode) =>
        Stepped(m.(accounts := m.accounts[i := WithPasscode(m.accounts[i], newPasscode)]), input[2..])
  }

  /** One choice at the account menu. Option 1 only shows the balance, and
      an unknown option only prints a message. */
  function AccountMenuStep(m: Machine, input: seq<Token>): (r: Stepped)
    requires m.mode.LoggedIn? && ModeInRange(m) && input != []
    ensures IsRest(r.rest, input) && |r.rest| < |input|
    ensures ModeInRange(r.machine)
    ensures KeepsNumbers(m.accounts, r.machine.accounts)
    ensures Moved(m, r.machine) <==> ChoiceMalformed(m, input)
    ensures Moved(m, r.machine) ==> r.machine == Rejected(m)
    // logout only returns to the main menu; check balance and an unknown
    // option do nothing; all three read the choice token alone
    ensures input[0] == Int(6) ==> r == Stepped(m.(mode := MainMenu), input[1..])
    ensures input[0].Int? && !(2 <= input[0].n <= 6) ==> r == Stepped(m, input[1..])
  {
    var i := m.mode.current;
    match ReadInt(input[0])
    case None => Stepped(Rejected(m), input[1..])
    case Some(option) =>
      if option == 2 || option == 3 then AmountStep(m, i, option, input)
      else if option == 4 then TransferStep(m, i, input)
      else if option == 5 then PasscodeStep(m, i, input)
      else if option == 6 then Stepped(m.(mode := MainMenu), input[1..])
      else Stepped(m, input[1..])
  }

  /** One menu choice, in whichever menu the session is. */
  function Step(m: Machine, input: seq<Token>): (r: Stepped)
    requires !m.mode.Terminated? && ModeInRange(m) && input != []
    ensures IsRest(r.rest, input) && |r.rest| < |input|
    ensures ModeInRange(r.machine)
    ensures KeepsNumbers(m.accounts, r.machine.accounts)
    ensures Moved(m, r.machine) <==> ChoiceMalformed(m, input)
    ensures Moved(m, r.machine) ==> r.machine == Rejected(m)
  {
    if m.mode.MainMenu? then MainMenuStep(m, input) else AccountMenuStep(m, input)
  }

  /** The session run on a whole input: steps until Exit is chosen or the
      input is used up. */
  function Run(m: Machine, input: seq<Token>): (r: Machine)
    requires ModeInRange(m)
    ensures ModeInRange(r)
    ensures |m.accounts| <= |r.accounts|
    ensures m.mode.Terminated? ==> r == m
    decreases |input|
  {
    if input == [] || m.mode.Terminated? then m
    else
      var s := Step(m, input);
      Run(s.machine, s.rest)
  }

  // ---------------------------------------------------------------------
  // Properties of one step

  /** Every step keeps account numbers unique and the counter in [0, 3). */
  lemma StepKeepsInv(m: Machine, input: seq<Token>)
    requires Inv(m) && !m.mode.Terminated? && input != []
    ensures Inv(Step(m, input).machine)
  {
  }

  /** The program ends exactly when option 3 is chosen at the main menu. */
  lemma TerminatesOnlyOnExit(m: Machine, input: seq<Token>)
    requires !m.mode.Terminated? && ModeInRange(m) && input != []
    ensures Step(m, input).machine.mode.Terminated? <==> m.mode.MainMenu? && input[0] == Int(3)
  {
  }

  /** The account menu is left exactly when option 6 is chosen, and always
      for the main menu. */
  lemma LeavesAccountMenuOnlyOnLogout(m: Machine, input: seq<Token>)
    requires m.mode.LoggedIn? && ModeInRange(m) && input != []
    ensures Step(m, input).machine.mode != m.mode <==> input[0] == Int(6)
    ensures Step(m, input).machine.mode != m.mode ==> Step(m, input).machine.mode == MainMenu
  {
  }

  /** Login: the main menu moves to the account menu of account `i` exactly
      when option 2 is followed by a number and a passcode that the first
      matching account, account `i`, accepts. */
  lemma LoginSucceedsOnlyOnMatch(m: Machine, input: seq<Token>, i: nat)
    requires m.mode.MainMenu? && ModeInRange(m) && input != []
    ensures Step(m, input).machine.mode == LoggedIn(i) <==>
      |input| >= 3 && input[0] == Int(2) && input[1].Int? && input[2].Int? &&
      FirstWithCredentials(m.accounts, input[1].n, input[2].n) == Some(i)
  {
  }

  /** A malformed menu choice changes nothing but the counter, in either
      menu. */
  lemma MalformedChoiceIsCounted(m: Machine, t: Token, rest: seq<Token>)
    requires !m.mode.Terminated? && ModeInRange(m) && ReadInt(t).None?
    ensures Step(m, [t] + rest) == Stepped(Rejected(m), rest)
  {
  }

  /** Deposits only raise and withdrawals only lower the logged-in balance:
      a non-positive amount is refused and leaves the whole session as it
      was, and a positive one is deposited or withdrawn exactly. */
  lemma AmountsArePositive(m: Machine, input: seq<Token>)
    requires m.mode.LoggedIn? && ModeInRange(m) && input != []
    ensures var i := m.mode.current;
      var a, a' := m.accounts[i], Step(m, input).machine.accounts[i];
      (input[0] == Int(2) ==> a.balance <= a'.balance) &&
      (input[0] == Int(3) ==> a'.balance <= a.balance && (0.0 <= a.balance ==> 0.0 <= a'.balance))
    ensures (input[0] == Int(2) || input[0] == Int(3)) && 2 <= |input| && ReadAmount(input[1]).Some? ==>
      var i, amount := m.mode.current, ReadAmount(input[1]).value;
      Step(m, input) ==
        if amount <= 0.0 then Stepped(m, input[2..])
        else if input[0] == Int(2) then Stepped(m.(accounts := m.accounts[i := Deposited(m.accounts[i], amount)]), input[2..])
        else Stepped(m.(accounts := m.accounts[i := Withdrawn(m.accounts[i], amount)]), input[2..])
  {
  }

  /** Input made of integers only is never counted as invalid: it leaves the
      counter and the pause count as they were, at every prompt. */
  lemma WellFormedInputKeepsCounter(m: Machine, input: seq<Token>)
    requires !m.mode.Terminated? && ModeInRange(m) && input != []
    requires forall k :: 0 <= k < |input| ==> input[k].Int?
    ensures Step(m, input).machine.invalidInputs == m.invalidInputs
    ensures Step(m, input).machine.pauses == m.pauses
  {
  }

  /** A malformed account number or passcode at options 1 and 2 is discarded
      and counted, and nothing else changes. */
  lemma MalformedCredentialIsCounted(m: Machine, option: int, number: int, t: Token, rest: seq<Token>)
    requires m.mode.MainMenu? && (option == 1 || option == 2) && ReadInt(t).None?
    ensures Step(m, [Int(option), t] + rest) == Stepped(Rejected(m), rest)
    ensures Step(m, [Int(option), Int(number), t] + rest) == Stepped(Rejected(m), rest)
  {
    assert ([Int(option), t] + rest)[2..] == rest;
    assert ([Int(option), Int(number), t] + rest)[3..] == rest;
  }

  /** A malformed deposit or withdrawal amount, recipient number or new
      passcode is discarded and counted, and nothing else changes. */
  lemma MalformedAnswerIsCounted(m: Machine, option: int, t: Token, rest: seq<Token>)
    requires m.mode.LoggedIn? && ModeInRange(m)
    requires 2 <= option <= 5 && ReadInt(t).None?
    requires option == 2 || option == 3 ==> t.Bad?
    ensures Step(m, [Int(option), t] + rest) == Stepped(Rejected(m), rest)
  {
    assert ([Int(option), t] + rest)[2..] == rest;
  }

  /** A malformed transfer amount, once another existing account is named as
      recipient, is discarded and counted, and nothing else changes. */
  lemma MalformedTransferAmountIsCounted(m: Machine, number: int, rest: seq<Token>)
    requires m.mode.LoggedIn? && ModeInRange(m)
    requires FirstWithNumber(m.accounts, number).Some? && FirstWithNumber(m.accounts, number).value != m.mode.current
    ensures Step(m, [Int(4), Int(number), Bad] + rest) == Stepped(Rejected(m), rest)
  {
    assert ([Int(4), Int(number), Bad] + rest)[3..] == rest;
  }

  /** The choices that touch no account: Exit ends the program, logout
      returns to the main menu, and check balance and unknown options change
      nothing; each reads only the choice token. */
  lemma NoOpChoices(m: Machine, k: int, rest: seq<Token>)
    requires !m.mode.Terminated? && ModeInRange(m)
    ensures m.mode.MainMenu? && k == 3 ==> Step(m, [Int(k)] + rest) == Stepped(m.(mode := Terminated), rest)
    ensures m.mode.MainMenu? && !(1 <= k <= 3) ==> Step(m, [Int(k)] + rest) == Stepped(m, rest)
    ensures m.mode.LoggedIn? && k == 6 ==> Step(m, [Int(k)] + rest) == Stepped(m.(mode := MainMenu), rest)
    ensures m.mode.LoggedIn? && !(2 <= k <= 6) ==> Step(m, [Int(k)] + rest) == Stepped(m, rest)
  {
    assert ([Int(k)] + rest)[1..] == rest;
  }

  /** Create account: two integers create the account unless the number is
      taken, and nothing else changes. */
  lemma CreateOutcome(m: Machine, number: int, passcode: int, rest: seq<Token>)
    requires m.mode.MainMenu?
    ensures Step(m, [Int(1), Int(number), Int(passcode)] + rest) ==
      Stepped(m.(accounts := Created(m.accounts, number, passcode)), rest)
  {
    assert ([Int(1), Int(number), Int(passcode)] + rest)[3..] == rest;
  }

  /** Change passcode: an integer becomes the logged-in account's passcode,
      and nothing else changes. */
  lemma PasscodeOutcome(m: Machine, newPasscode: int, rest: seq<Token>)
    requires m.mode.LoggedIn? && ModeInRange(m)
    ensures var i := m.mode.current;
      Step(m, [Int(5), Int(newPasscode)] + rest) ==
        Stepped(m.(accounts := m.accounts[i := WithPasscode(m.accounts[i], newPasscode)]), rest)
  {
    assert ([Int(5), Int(newPasscode)] + rest)[2..] == rest;
  }

  /** Transfer: the transfer is never made when the recipient is unknown or
      is the logged-in account, and otherwise moves the amount read from the
      logged-in account to the first account with the recipient number. */
  lemma TransferOutcome(m: Machine, number: int, t: Token, rest: seq<Token>)
    requires m.mode.LoggedIn? && ModeInRange(m)
    ensures var i := m.mode.current;
      FirstWithNumber(m.accounts, number) in {None, Some(i)} ==>
        Step(m, [Int(4), Int(number)] + rest) == Stepped(m, rest)
    ensures var i, j := m.mode.current, FirstWithNumber(m.accounts, number);
      j.Some? && j.value != i && ReadAmount(t).Some? ==>
        var moved := Transferred(m.accounts[i], m.accounts[j.value], ReadAmount(t).value);
        Step(m, [Int(4), Int(number), t] + rest) ==
          Stepped(m.(accounts := m.accounts[i := moved.0][j.value := moved.1]), rest)
  {
    assert ([Int(4), Int(number)] + rest)[2..] == rest;
    assert ([Int(4), Int(number), t] + rest)[3..] == rest;
  }

  /** The logged-in account never becomes overdrawn by its own actions. */
  lemma SessionAccountStaysSolvent(m: Machine, input: seq<Token>)
    requires Inv(m) && m.mode.LoggedIn? && input != []
    requires 0.0 <= m.accounts[m.mode.current].balance
    ensures 0.0 <= Step(m, input).machine.accounts[m.mode.current].balance
  {
  }

  /** An account other than the logged-in one changes only by a transfer to
      it. */
  lemma OthersChangeOnlyByTransfer(m: Machine, input: seq<Token>, k: nat)
    requires m.mode.LoggedIn? && ModeInRange(m) && input != []
    requires k < |m.accounts| && k != m.mode.current
    requires Step(m, input).machine.accounts[k] != m.accounts[k]
    ensures |input| >= 3 && input[0] == Int(4) && input[1] == Int(m.accounts[k].number)
    ensures ReadAmount(input[2]).Some? && Covers(m.accounts[m.mode.current], ReadAmount(input[2]).value)
  {
  }

  /** Money is created or destroyed only by deposit and withdrawal: every
      other step, including create account and transfer, keeps the sum of
      all balances. */
  lemma {:induction false} StepKeepsTotal(m: Machine, input: seq<Token>)
    requires Inv(m) && !m.mode.Terminated? && input != []
    requires !(m.mode.LoggedIn? && (input[0] == Int(2) || input[0] == Int(3)))
    ensures Total(Step(m, input).machine.accounts) == Total(m.accounts)
  {
    var m' := Step(m, input).machine;
    if m'.accounts == m.accounts {
    } else if m.mode.MainMenu? {
      var number, passcode := input[1].n, input[2].n;
      TotalAppended(m.accounts, AccountRecord(number, passcode, 0.0));
    } else {
      var i := m.mode.current;
      var rest := input[1..];
      if input[0] == Int(4) {
        var j := FirstWithNumber(m.accounts, rest[0].n).value;
        var moved := Transferred(m.accounts[i], m.accounts[j], ReadAmount(rest[1]).value);
        TotalReplaced(m.accounts, i, moved.0);
        TotalReplaced(m.accounts[i := moved.0], j, moved.1);
      } else {
        TotalReplaced(m.accounts, i, m'.accounts[i]);
        assert m'.accounts == m.accounts[i := m'.accounts[i]];
      }
    }
  }

  // ---------------------------------------------------------------------
  // Properties of whole runs

  /** Every reachable machine satisfies the invariant. */
  lemma {:induction false} RunKeepsInv(m: Machine, input: seq<Token>)
    requires Inv(m)
    ensures Inv(Run(m, input))
    decreases |input|
  {
    if input != [] && !m.mode.Terminated? {
      StepKeepsInv(m, input);
      var s := Step(m, input);
      RunKeepsInv(s.machine, s.rest);
    }
  }

  /** Over a whole session the registry only grows: existing accounts keep
      their positions and numbers. */
  lemma {:induction false} RunKeepsNumbers(m: Machine, input: seq<Token>)
    requires ModeInRange(m)
    ensures KeepsNumbers(m.accounts, Run(m, input).accounts)
    decreases |input|
  {
    if input != [] && !m.mode.Terminated? {
      var s := Step(m, input);
      RunKeepsNumbers(s.machine, s.rest);
    }
  }

  /** Once the program has ended, no input changes anything. */
  lemma RunStopsAtExit(m: Machine, input: seq<Token>)
    requires ModeInRange(m) && m.mode.Terminated?
    ensures Run(m, input) == m
  {
  }

  /** Three malformed tokens in a row on a fresh counter cost exactly one
      lockout pause and leave the counter at 0, in either menu; nothing
      else changes. */
  lemma ThreeStrikes(m: Machine, rest: seq<Token>)
    requires Inv(m) && !m.mode.Terminated? && m.invalidInputs == 0
    ensures Run(m, [Bad, Bad, Bad] + rest) == Run(m.(pauses := m.pauses + 1), rest)
  {
    var input := [Bad, Bad, Bad] + rest;
    var m1 := Rejected(m);
    var m2 := Rejected(m1);
    assert Step(m, input) == Stepped(m1, [Bad, Bad] + rest);
    assert Step(m1, [Bad, Bad] + rest) == Stepped(m2, [Bad] + rest);
    assert Step(m2, [Bad] + rest) == Stepped(m.(pauses := m.pauses + 1), rest);
    calc {
      Run(m, input);
      Run(m1, [Bad, Bad] + rest);
      Run(m2, [Bad] + rest);
      Run(m.(pauses := m.pauses + 1), rest);
    }
  }
}

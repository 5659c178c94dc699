# ATM simulator, modelled in Dafny

The ATM simulator keeps a small in-memory list of bank accounts. It lets one
console user create an account or log in with an account number and a
passcode. A logged-in user can check the balance, deposit, withdraw, transfer
to another account, change the passcode, or log out. Every prompt that expects
a number counts malformed input in a single process-wide counter. When that
counter reaches 3, the program pauses for ten seconds and resets it.

The whole program is one Java class, `ATMSimulator`. Its instances are the
accounts, and its `main` method holds the registry and the two nested menu
loops. The model follows that structure in four modules:

- `Accounts` (accounts.dfy) has the class `Account`. It keeps the source's
  immutable `accountNumber` and its mutable `passcode` and `balance`, and its
  methods change those fields in place. Each method is tied to a function on
  `AccountRecord` values (`Deposited`, `Withdrawn`, `Transferred`,
  `WithPasscode`), and the properties are proved about those functions:
  - a transfer conserves the sum of the two balances;
  - the sender is never overdrawn;
  - deposit/withdraw round trips;
  - the passcode change.
- `Registry` (registry.dfy) has the class `Bank`. It holds the ordered list
  `accounts: seq<Account>`, seeded with (123, 123) and (456, 456). Its methods
  are the linear scans of `main`:
  - the duplicate check and append of "create account";
  - the login scan;
  - the recipient lookup of "transfer".
  Each scan is proved against a specification function (`InUse`,
  `FirstWithNumber`, `FirstWithCredentials`, `Created`). Its invariant is
  that account numbers are unique.
- `Session` (session.dfy) is the session as a state machine over values. The
  registry is a list of records, and the modes are `MainMenu`,
  `LoggedIn(i)` and `Terminated`. The machine also holds the invalid-input
  counter and a count of lockout pauses. `Step` consumes the tokens that one
  menu choice reads, and `Run` steps through a whole input. The lemmas here
  cover:
  - uniqueness of numbers and the counter range [0, 3);
  - the registry never shrinking;
  - when each loop ends;
  - the login condition;
  - the counter moving exactly when a malformed token is read at a prompt
    the choice reaches, and nothing else changing then;
  - the three-strikes lockout;
  - solvency of the logged-in account;
  - conservation of the total balance by every step except deposit and
    withdrawal.
- `MenuLoop` (menu_loop.dfy) has the class `Atm`, the imperative `main`. It
  holds the `Bank`, the current menu (with the logged-in `Account` object), the
  counter and the pause count. Each handler method is proved to change the
  objects exactly as the corresponding `Session` function prescribes. `Run`
  is a loop over the input whose result is `Session.Run`.

`Scenarios` (scenario.dfy) runs a sample walkthrough on the machine and on
the objects:

1. Deposit 100 into 123.
2. Transfer 40 to 456.
3. A refused withdrawal of 1000 from 456.
4. Change the passcode of 123 to 999.

The result is balances 60 and 40, after which 123 opens with 999 and no longer
with 123.

Console input is a sequence of tokens. `Int(n)` is accepted by both integer
and decimal reads, `Dec(x)` only by decimal reads, and `Bad` by neither. The
ten-second pause is recorded as an increment of `pauses`. Money is a `real`.

Deposit and withdrawal amounts must be strictly positive
(ATMSimulator.java:241 and 268). The transfer amount is not checked: it is
passed to `transfer` as read (ATMSimulator.java:324-344), and `transfer` only
tests `amount <= balance`. So a negative transfer moves
money from the recipient to the sender, and the recipient's balance can
become negative. `Accounts.NegativeTransferDebitsRecipient` and
`Scenarios.NegativeTransferGoesThrough` show this. Because of it,
"every balance is non-negative" is not an invariant of the program. Only the
logged-in account is kept from being overdrawn by its own actions
(`Session.SessionAccountStaysSolvent`).

## Model

| member | source | states |
|---|---|---|
| `Accounts.Deposited` | ATMSimulator.java:50-54 | the balance rises by exactly the amount, with no check; number and passcode are unchanged |
| `Accounts.Withdrawn` | ATMSimulator.java:57-66 | a covered amount (amount <= balance) is taken off exactly; otherwise the account is unchanged; number and passcode never change; a covered withdrawal cannot leave a negative balance |
| `Accounts.Transferred` | ATMSimulator.java:69-78 | a covered amount is taken from the sender and given to the recipient exactly; the sum of the two balances is conserved; the sender cannot be overdrawn; an uncovered amount leaves both accounts unchanged; numbers and passcodes are untouched |
| `Accounts.WithPasscode` | ATMSimulator.java:81-84 | afterwards exactly the new passcode is accepted; number and balance are unchanged |
| `Accounts.DepositThenWithdraw` | ATMSimulator.java:50-66 | depositing then withdrawing the same positive amount restores the account if and only if its balance was not negative |
| `Accounts.WithdrawThenDeposit` | ATMSimulator.java:57-66 | a covered withdrawal is undone by depositing the same amount |
| `Accounts.ChangedPasscode` | ATMSimulator.java:81-84 | after a change the new passcode validates, and the old one validates only if it equals the new one |
| `Accounts.NegativeTransferDebitsRecipient` | ATMSimulator.java:69-78 | a covered negative amount lowers the recipient's balance and raises the sender's |
| `Accounts.Account.constructor` | ATMSimulator.java:25-28 | a new account has the given number and passcode and balance 0 |
| `Accounts.Account.AddBalance` | ATMSimulator.java:16-18 | the balance grows by the amount |
| `Accounts.Account.SubtractBalance` | ATMSimulator.java:20-22 | the balance shrinks by the amount |
| `Accounts.Account.Deposit` | ATMSimulator.java:50-54 | the object's new state is `Deposited` of its old state; only the balance field may change |
| `Accounts.Account.Withdraw` | ATMSimulator.java:57-66 | reports success iff the amount is covered; the new state is `Withdrawn` of the old |
| `Accounts.Account.Transfer` | ATMSimulator.java:69-78 | reports success iff covered; for a distinct recipient both new states are `Transferred` of the old ones; a transfer to the same object changes nothing |
| `Accounts.Account.ChangePasscode` | ATMSimulator.java:81-84 | the new state is `WithPasscode` of the old; only the passcode field may change |
| `Registry.FirstWithNumber` | ATMSimulator.java:312-318 | the result is the first position holding the number, and is none exactly when no account has it |
| `Registry.FirstWithCredentials` | ATMSimulator.java:192-198 | the result is the first position whose number and passcode both match, and is none exactly when no account matches |
| `Registry.Created` | ATMSimulator.java:150-166 | a duplicate number leaves the list unchanged; otherwise one account with balance 0 is appended; existing entries and order are kept; uniqueness is preserved; the new account can log in |
| `Registry.LoginFindsNumberedAccount` | ATMSimulator.java:192-198 | with unique numbers, login succeeds iff the account with that number accepts the passcode, and finds that account |
| `Registry.TotalReplaced` | ATMSimulator.java:69-78 | replacing one account changes the sum of all balances by exactly that account's change |
| `Registry.Bank.constructor` | ATMSimulator.java:88-94 | the registry starts as accounts (123, 123) and (456, 456) with balance 0, numbers unique |
| `Registry.Bank.HasNumber` | ATMSimulator.java:153-159 | the scan reports a duplicate iff some account has the number |
| `Registry.Bank.Create` | ATMSimulator.java:150-166 | creates iff the number is unused; the records become `Created` of the old ones; old objects keep their places; numbers stay unique |
| `Registry.Bank.FindByNumber` | ATMSimulator.java:312-318 | returns null iff no account has the number, otherwise the first account that has it |
| `Registry.Bank.Login` | ATMSimulator.java:192-198 | returns null iff no account matches both number and passcode, otherwise the first that does |
| `Session.ReadInt` | ATMSimulator.java:105-108 | an integer read accepts exactly the integer tokens, with their value |
| `Session.ReadAmount` | ATMSimulator.java:239-246 | an amount read refuses exactly the malformed tokens, reads a decimal token as its value and an integer token as its value |
| `Session.Initial` | ATMSimulator.java:88-94 | the program starts at the main menu with a zero counter and no pauses, and the registry is exactly two accounts at balance 0, (123, 123) first and (456, 456) second |
| `Session.Rejected` | ATMSimulator.java:107-121 | a malformed token counts the counter up by one, or resets it to 0 at the limit, keeping it in [0, 3); it costs a pause exactly when the limit is reached; the registry and the menu stay as they were |
| `Session.Penalized` | ATMSimulator.java:107-121 | a malformed token counts up, and reaching 3 resets the counter to 0, so it stays in [0, 3) |
| `Session.CredentialsStep` | ATMSimulator.java:125-202 | create or login consumes at least one token and never removes or renumbers an account; with two integers read, option 1 makes the registry `Created` of the old one and option 2 moves to the first matching account or stays, with nothing else changed; the counter moves iff the number or the passcode is not an integer, and then nothing else changes |
| `Session.MainMenuStep` | ATMSimulator.java:105-124 | a main-menu choice consumes input, keeps the logged-in position valid and keeps numbers; Exit only ends the program and an unknown option changes nothing, each reading the choice token alone; the counter moves iff a malformed token is met at a prompt the choice reaches, and then nothing else changes |
| `Session.AmountStep` | ATMSimulator.java:236-289 | deposit/withdraw keeps the registry's size and the mode; a non-positive amount changes nothing, a positive one is deposited or withdrawn on the logged-in account alone; the counter moves iff the amount is malformed, and then nothing else changes |
| `Session.TransferStep` | ATMSimulator.java:290-346 | an unknown recipient or the logged-in account itself leaves the session unchanged and no amount is read; another existing recipient j and an amount make accounts i and j `Transferred` of the old ones and change nothing else; the counter moves iff the recipient number is malformed or, after a valid other recipient, the amount is, and then nothing else changes |
| `Session.PasscodeStep` | ATMSimulator.java:347-370 | an integer read becomes the logged-in account's passcode and nothing else changes; the counter moves iff the new passcode is not an integer, and then nothing else changes |
| `Session.AccountMenuStep` | ATMSimulator.java:203-374 | an account-menu choice consumes input and keeps numbers; logout only returns to the main menu, and check balance and an unknown option change nothing, each reading the choice token alone; the counter moves iff a malformed token is met at a prompt the choice reaches, and then nothing else changes |
| `Session.Step` | ATMSimulator.java:96-380 | every choice consumes at least one token, keeps numbers and keeps the logged-in account in range; the counter moves iff a malformed token is met, and then only by one rejection; the no-op choices are stated by `NoOpChoices` |
| `Session.Run` | ATMSimulator.java:96-380 | the main loop keeps the logged-in account in range, never shrinks the registry, and does nothing once the program has ended |
| `Session.StepKeepsInv` | ATMSimulator.java:150-166 | every step keeps account numbers unique and the counter in [0, 3) |
| `Session.TerminatesOnlyOnExit` | ATMSimulator.java:377-380 | the program ends iff option 3 is chosen at the main menu |
| `Session.LeavesAccountMenuOnlyOnLogout` | ATMSimulator.java:371-374 | the account menu is left iff option 6 is chosen, and always for the main menu |
| `Session.LoginSucceedsOnlyOnMatch` | ATMSimulator.java:192-203 | the main menu moves to account i iff option 2 is followed by two integers that the first matching account, i, accepts |
| `Session.MalformedChoiceIsCounted` | ATMSimulator.java:105-121 | a malformed menu choice, in either menu, only counts against the shared counter |
| `Session.AmountsArePositive` | ATMSimulator.java:236-289 | a non-positive deposit or withdrawal amount leaves the session unchanged; a positive one is deposited or withdrawn exactly on the logged-in account; so a deposit never lowers and a withdrawal never raises the balance, and a withdrawal keeps it non-negative |
| `Session.WellFormedInputKeepsCounter` | ATMSimulator.java:96-380 | input of integers only never moves the counter or the pause count |
| `Session.MalformedCredentialIsCounted` | ATMSimulator.java:130-191 | a malformed account number or passcode is discarded and counted, and nothing else changes |
| `Session.MalformedAnswerIsCounted` | ATMSimulator.java:236-369 | a malformed deposit or withdrawal amount, recipient number or new passcode is discarded and counted, and nothing else changes |
| `Session.MalformedTransferAmountIsCounted` | ATMSimulator.java:324-343 | a malformed transfer amount after a valid other recipient is discarded and counted, and nothing else changes |
| `Session.NoOpChoices` | ATMSimulator.java:235-378 | Exit only ends the program, logout only returns to the main menu, and check balance and unknown options change nothing; each reads only the choice token |
| `Session.CreateOutcome` | ATMSimulator.java:124-167 | option 1 with two integers makes the registry `Created` of the old one and changes nothing else |
| `Session.PasscodeOutcome` | ATMSimulator.java:347-370 | option 5 with an integer sets the logged-in account's passcode to it and changes nothing else |
| `Session.TransferOutcome` | ATMSimulator.java:290-346 | option 4 makes no transfer when the recipient is unknown or is the logged-in account; otherwise the amount moves from the logged-in account to the first account with the recipient's number by `Transferred` |
| `Session.SessionAccountStaysSolvent` | ATMSimulator.java:263-346 | no step makes the logged-in account's non-negative balance negative |
| `Session.OthersChangeOnlyByTransfer` | ATMSimulator.java:312-344 | another account changes only through a covered transfer naming its number |
| `Session.StepKeepsTotal` | ATMSimulator.java:290-346 | every step except deposit and withdrawal keeps the sum of all balances, including create and transfer |
| `Session.RunKeepsInv` | ATMSimulator.java:96-380 | unique numbers and the counter range hold after any input |
| `Session.RunKeepsNumbers` | ATMSimulator.java:150-166 | over a whole session the registry only grows, and entries keep their positions and numbers |
| `Session.RunStopsAtExit` | ATMSimulator.java:377-380 | after exit no input changes anything |
| `Session.ThreeStrikes` | ATMSimulator.java:107-121 | three malformed tokens from a zero counter cause exactly one pause and leave the counter at 0, with nothing else changed |
| `MenuLoop.Atm.constructor` | ATMSimulator.java:87-96 | the program starts at the main menu with the seeded registry and a zero counter |
| `MenuLoop.Atm.CountInvalidInput` | ATMSimulator.java:107-121 | counting one malformed token is `Rejected` of the session |
| `MenuLoop.Atm.HandleCredentials` | ATMSimulator.java:125-191 | reading the two integers of options 1 and 2 follows `CredentialsStep` |
| `MenuLoop.Atm.CreateAccount` | ATMSimulator.java:150-166 | the registry becomes `Created` of the old one |
| `MenuLoop.Atm.LogIn` | ATMSimulator.java:192-203 | goes to the account menu of the first matching account, or stays at the main menu |
| `MenuLoop.Atm.HandleMainMenu` | ATMSimulator.java:105-124 | one main-menu choice follows `MainMenuStep` |
| `MenuLoop.Atm.HandleAmount` | ATMSimulator.java:236-289 | deposit and withdraw on the logged-in object follow `AmountStep` |
| `MenuLoop.Atm.HandleTransfer` | ATMSimulator.java:290-346 | the recipient lookup, the self-transfer check and the transfer between objects follow `TransferStep` |
| `MenuLoop.Atm.HandlePasscode` | ATMSimulator.java:347-370 | the passcode change on the logged-in object follows `PasscodeStep` |
| `MenuLoop.Atm.HandleAccountMenu` | ATMSimulator.java:203-374 | one account-menu choice follows `AccountMenuStep` |
| `MenuLoop.Atm.HandleChoice` | ATMSimulator.java:96-380 | one choice follows `Session.Step` |
| `MenuLoop.Atm.Run` | ATMSimulator.java:96-380 | the program on a whole input ends in `Session.Run` of its start |
| `Scenarios.WalkthroughOutcome` | ATMSimulator.java:168-376 | the walkthrough leaves 60 and 40; afterwards 123 opens with 999 and not with 123 |
| `Scenarios.NegativeTransferGoesThrough` | ATMSimulator.java:324-344 | a transfer of -50 from 123 to 456 leaves 50 and -50 |
| `Scenarios.AccountWalkthrough` | ATMSimulator.java:50-84 | the walkthrough on account objects leaves 60 and 40, 999 opens account 123 and 123 no longer does |
| `Scenarios.SessionWalkthrough` | ATMSimulator.java:86-380 | the whole program run on the walkthrough leaves balances 60 and 40 |

## Left out

- Console output: every `System.out` message, including `checkBalance`
  (ATMSimulator.java:45-47). That method only prints, so option 1 of the
  account menu changes nothing in the model (`Session.NoOpChoices`).
- Scanner parsing: input is already a sequence of classified tokens.
  `nextLine` discarding the rest of a line after a malformed token is
  modelled as discarding that one token, so one token per line is assumed.
  An integer outside Java's 32-bit range is not rejected by the model's
  integer read.
- Input that ends in the middle of a prompt makes the scanner throw and end
  the program. The model stops there, with the session unchanged.
- The ten-second `Thread.sleep` is an increment of `pauses`. Its
  `InterruptedException` path, which calls `System.exit(0)`, is not modelled.
- Floating-point money: `double` balances are `real`s. Rounding is not
  modelled. Neither are the `NaN` and `Infinity` amounts that `nextDouble`
  accepts. Nor is the possible inexactness of subtracting and re-adding the
  same amount in a transfer to oneself.
- Account numbers and passcodes are unbounded integers, not 32-bit `int`s.
- `setBalance` (ATMSimulator.java:12-14) is never called. The getters
  `getAccountNumber` and `getBalance` (ATMSimulator.java:31-37) are read as
  fields.
- `Accounts.Account.ValidatePasscode` has no contract of its own. It is the
  equality test of `Accepts`, and `Registry.Bank.Login` states what the scan
  using it returns.

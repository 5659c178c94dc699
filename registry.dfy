/** The account registry: the ordered list of accounts that the simulator's
    main loop keeps, seeded with two demo accounts, grown by "create
    account", and searched linearly by login and by transfer. */
module Registry {
  import opened Accounts

  datatype Option<+T> = None | Some(value: T)

  /** Is some account in `rs` numbered `n`? */
  predicate InUse(rs: seq<AccountRecord>, n: int)
  {
    exists k :: 0 <= k < |rs| && rs[k].number == n
  }

  /** No two accounts share a number. */
  predicate UniqueNumbers(rs: seq<AccountRecord>)
  {
    forall i, j :: 0 <= i < j < |rs| ==> rs[i].number != rs[j].number
  }

  /** Position of the first account numbered `n`, as the transfer's
      recipient lookup finds it. */
  function FirstWithNumber(rs: seq<AccountRecord>, n: int): (r: Option<nat>)
    ensures r.Some? ==> r.value < |rs| && rs[r.value].number == n
    ensures r.Some? ==> forall k :: 0 <= k < r.value ==> rs[k].number != n
    ensures r.None? <==> !InUse(rs, n)
  {
    if rs == [] then None
    else if rs[0].number == n then Some(0)
    else match FirstWithNumber(rs[1..], n)
      case None => None
      case Some(i) => Some(i + 1)
  }

  /** Position of the first account numbered `n` that accepts passcode `p`,
      as login finds it. */
  function FirstWithCredentials(rs: seq<AccountRecord>, n: int, p: int): (r: Option<nat>)
    ensures r.Some? ==> r.value < |rs| && rs[r.value].number == n && Accepts(rs[r.value], p)
    ensures r.Some? ==> forall k :: 0 <= k < r.value ==> !(rs[k].number == n && Accepts(rs[k], p))
    ensures r.None? <==> forall k :: 0 <= k < |rs| ==> !(rs[k].number == n && Accepts(rs[k], p))
  {
    if rs == [] then None
    else if rs[0].number == n && Accepts(rs[0], p) then Some(0)
    else match FirstWithCredentials(rs[1..], n, p)
      case None => None
      case Some(i) => Some(i + 1)
  }

  /** The registry after "create account": a new account with balance 0 is
      appended unless the number is already taken. */
  function Created(rs: seq<AccountRecord>, n: int, p: int): (r: seq<AccountRecord>)
    ensures InUse(rs, n) ==> r == rs
    ensures !InUse(rs, n) ==> |r| == |rs| + 1 && r[|rs|] == AccountRecord(n, p, 0.0)
    // existing entries and their order are untouched, and the list never shrinks
    ensures rs <= r
    ensures UniqueNumbers(rs) ==> UniqueNumbers(r)
    ensures InUse(r, n)
    // a freshly created account can be logged into with its passcode
    ensures !InUse(rs, n) ==> FirstWithCredentials(r, n, p) == Some(|rs|)
  {
    if InUse(rs, n) then rs else rs + [AccountRecord(n, p, 0.0)]
  }

  /** With unique numbers, login finds the account the number names, and
      succeeds exactly when that account accepts the passcode. */
  lemma LoginFindsNumberedAccount(rs: seq<AccountRecord>, n: int, p: int)
    requires UniqueNumbers(rs)
    ensures FirstWithCredentials(rs, n, p).Some? <==>
      FirstWithNumber(rs, n).Some? && Accepts(rs[FirstWithNumber(rs, n).value], p)
    ensures FirstWithCredentials(rs, n, p).Some? ==> FirstWithCredentials(rs, n, p) == FirstWithNumber(rs, n)
  {
  }

  /** Sum of all balances held in the registry. */
  function Total(rs: seq<AccountRecord>): real
  {
    if rs == [] then 0.0 else Total(rs[..|rs| - 1]) + rs[|rs| - 1].balance
  }

  /** Replacing one entry changes the total by exactly the change of that
      entry's balance. */
  lemma {:induction false} TotalReplaced(rs: seq<AccountRecord>, i: nat, a: AccountRecord)
    requires i < |rs|
    ensures Total(rs[i := a]) == Total(rs) - rs[i].balance + a.balance
  {
    var last := |rs| - 1;
    if i < last {
      assert rs[i := a][..last] == rs[..last][i := a];
      TotalReplaced(rs[..last], i, a);
    } else {
      assert rs[i := a][..last] == rs[..last];
    }
  }

  /** Appending an account adds its balance to the total. */
  lemma TotalAppended(rs: seq<AccountRecord>, a: AccountRecord)
    ensures Total(rs + [a]) == Total(rs) + a.balance
  {
    assert (rs + [a])[..|rs|] == rs;
  }

  /** The registry's account objects, viewed as records. */
  ghost function Records(s: seq<Account>): (r: seq<AccountRecord>)
    reads s
    ensures |r| == |s|
    ensures forall k :: 0 <= k < |s| ==> r[k] == s[k].Record()
  {
    seq(|s|, k requires 0 <= k < |s| reads s => s[k].Record())
  }

  /** The list of accounts that the simulator's main loop holds. */
  class Bank {
    var accounts: seq<Account>

    /** Account numbers are unique; so, since the number of an account
        never changes, every entry is a distinct object. */
    ghost predicate Valid()
      reads this
    {
      forall i, j :: 0 <= i < j < |accounts| ==> accounts[i].accountNumber != accounts[j].accountNumber
    }

    /** The list seeded with the two demo accounts (123, 123) and (456, 456). */
    constructor ()
      ensures Valid()
      ensures Records(accounts) == [AccountRecord(123, 123, 0.0), AccountRecord(456, 456, 0.0)]
      ensures forall a :: a in accounts ==> fresh(a)
    {
      var first := new Account(123, 123);
      var second := new Account(456, 456);
      accounts := [first, second];
    }

    /** The duplicate scan of "create account". */
    method HasNumber(number: int) returns (isDuplicate: bool)
      ensures isDuplicate <==> InUse(Records(accounts), number)
    {
      isDuplicate := false;
      for k := 0 to |accounts|
        invariant forall j :: 0 <= j < k ==> accounts[j].accountNumber != number
      {
        if accounts[k].accountNumber == number {
          isDuplicate := true;
          break;
        }
      }
    }

    /** "Create account": append a new account unless its number is taken. */
    method Create(number: int, passcode: int) returns (created: bool)
      requires Valid()
      modifies this
      ensures Valid()
      ensures created <==> !InUse(old(Records(accounts)), number)
      ensures Records(accounts) == Created(old(Records(accounts)), number, passcode)
      ensures old(accounts) <= accounts
      ensures forall a :: a in accounts ==> a in old(accounts) || fresh(a)
    {
      var newAccount := new Account(number, passcode);
      var isDuplicate := HasNumber(number);
      if !isDuplicate {
        accounts := accounts + [newAccount];
        assert Records(accounts) == old(Records(accounts)) + [newAccount.Record()];
      }
      created := !isDuplicate;
    }

    /** The recipient lookup of "transfer": the first account with the given
        number, or null. */
    method FindByNumber(number: int) returns (recipient: Account?)
      ensures recipient == null <==> FirstWithNumber(Records(accounts), number).None?
      ensures recipient != null ==> recipient == accounts[FirstWithNumber(Records(accounts), number).value]
    {
      recipient := null;
      for k := 0 to |accounts|
        invariant forall j :: 0 <= j < k ==> accounts[j].accountNumber != number
      {
        if accounts[k].accountNumber == number {
          recipient := accounts[k];
          ghost var rs := Records(accounts);
          assert FirstWithNumber(rs, number) == Some(k);
          break;
        }
      }
    }

    /** The login scan: the first account whose number and passcode both
        match, or null. */
    method Login(number: int, passcode: int) returns (currentAccount: Account?)
      ensures currentAccount == null <==> FirstWithCredentials(Records(accounts), number, passcode).None?
      ensures currentAccount != null ==>
        currentAccount == accounts[FirstWithCredentials(Records(accounts), number, passcode).value]
    {
      currentAccount := null;
      for k := 0 to |accounts|
        invariant forall j :: 0 <= j < k ==> !(accounts[j].accountNumber == number && accounts[j].ValidatePasscode(passcode))
      {
        if accounts[k].accountNumber == number && accounts[k].ValidatePasscode(passcode) {
          currentAccount := accounts[k];
          ghost var rs := Records(accounts);
          assert FirstWithCredentials(rs, number, passcode) == Some(k);
          break;
        }
      }
    }
  }
}

/**
 * The persistence model: a Customer owns its Accounts and Recipients. Each child
 * points back at its owner; the owner keeps its children in two ordered lists.
 */
module Model {
  import opened Wrappers
  import Lists

  /**
   * A bank account. Its admission rules (`canCredit`, `canDebit`, `canWithdraw`) belong
   * to the concrete account kind, which this model does not fix: they are policies
   * chosen when the account is created, and are otherwise arbitrary.
   */
  class Account {
    var balance: int
    var customer: Customer?
    /** kind policy: may `amount` be credited to an account holding `balance`? */
    const creditPolicy: (int, int) -> bool
    /** kind policy: may `amount` be debited from an account holding `balance`? */
    const debitPolicy: (int, int) -> bool
    /** kind policy: may an account holding `balance` be withdrawn from at all? */
    const withdrawPolicy: int -> bool

    constructor (creditPolicy: (int, int) -> bool, debitPolicy: (int, int) -> bool, withdrawPolicy: int -> bool)
      ensures balance == 0 && customer == null
      ensures this.creditPolicy == creditPolicy && this.debitPolicy == debitPolicy
      ensures this.withdrawPolicy == withdrawPolicy
    {
      balance := 0;
      customer := null;
      this.creditPolicy := creditPolicy;
      this.debitPolicy := debitPolicy;
      this.withdrawPolicy := withdrawPolicy;
    }

    predicate CanCredit(amount: int)
      reads this
    {
      creditPolicy(balance, amount)
    }

    predicate CanDebit(amount: int)
      reads this
    {
      debitPolicy(balance, amount)
    }

    predicate CanWithdraw()
      reads this
    {
      withdrawPolicy(balance)
    }

    /** Assumed semantics: the balance grows by `amount`, unconditionally. */
    method Credit(amount: int)
      modifies this`balance
      ensures balance == old(balance) + amount
    {
      balance := balance + amount;
    }

    /** Assumed semantics: the balance shrinks by `amount`, unconditionally
        (callers are expected to have consulted the admission rules). */
    method Debit(amount: int)
      modifies this`balance
      ensures balance == old(balance) - amount
    {
      balance := balance - amount;
    }

    method SetCustomer(customer: Customer?)
      modifies this`customer
      ensures this.customer == customer
    {
      this.customer := customer;
    }
  }

  /** An external transfer target of a customer. */
  class Recipient {
    var customer: Customer?

    constructor ()
      ensures customer == null
    {
      customer := null;
    }

    method SetCustomer(customer: Customer?)
      modifies this`customer
      ensures this.customer == customer
    {
      this.customer := customer;
    }
  }

  /**
   * A customer: a profile (nullable strings, `None` standing for Java's null) and the
   * two lists of children it owns, in insertion order.
   */
  class Customer {
    var firstName: Option<string>
    var lastName: Option<string>
    var email: Option<string>
    var phone: Option<string>
    var accounts: seq<Account>
    var recipients: seq<Recipient>

    /** Ownership consistency: every listed child points back at this customer. */
    ghost predicate OwnsChildren()
      reads this, accounts, recipients
    {
      OwnsAccounts() && OwnsRecipients()
    }

    ghost predicate OwnsAccounts()
      reads this, accounts
    {
      forall a :: a in accounts ==> a.customer == this
    }

    ghost predicate OwnsRecipients()
      reads this, recipients
    {
      forall r :: r in recipients ==> r.customer == this
    }

    constructor ()
      ensures accounts == [] && recipients == []
      ensures firstName == None && lastName == None && email == None && phone == None
      ensures OwnsChildren()
    {
      firstName, lastName, email, phone := None, None, None, None;
      accounts, recipients := [], [];
    }

    function GetFirstName(): Option<string>
      reads this
    {
      firstName
    }

    function GetLastName(): Option<string>
      reads this
    {
      lastName
    }

    function GetEmail(): Option<string>
      reads this
    {
      email
    }

    function GetPhone(): Option<string>
      reads this
    {
      phone
    }

    function GetAccounts(): seq<Account>
      reads this
    {
      accounts
    }

    function GetRecipients(): seq<Recipient>
      reads this
    {
      recipients
    }

    method SetFirstName(firstName: Option<string>)
      modifies this`firstName
      ensures GetFirstName() == firstName
      ensures GetLastName() == old(GetLastName()) && GetEmail() == old(GetEmail()) && GetPhone() == old(GetPhone())
      ensures GetAccounts() == old(GetAccounts()) && GetRecipients() == old(GetRecipients())
    {
      this.firstName := firstName;
    }

    method SetLastName(lastName: Option<string>)
      modifies this`lastName
      ensures GetLastName() == lastName
      ensures GetFirstName() == old(GetFirstName()) && GetEmail() == old(GetEmail()) && GetPhone() == old(GetPhone())
      ensures GetAccounts() == old(GetAccounts()) && GetRecipients() == old(GetRecipients())
    {
      this.lastName := lastName;
    }

    method SetEmail(email: Option<string>)
      modifies this`email
      ensures GetEmail() == email
      ensures GetFirstName() == old(GetFirstName()) && GetLastName() == old(GetLastName()) && GetPhone() == old(GetPhone())
      ensures GetAccounts() == old(GetAccounts()) && GetRecipients() == old(GetRecipients())
    {
      this.email := email;
    }

    method SetPhone(phone: Option<string>)
      modifies this`phone
      ensures GetPhone() == phone
      ensures GetFirstName() == old(GetFirstName()) && GetLastName() == old(GetLastName()) && GetEmail() == old(GetEmail())
      ensures GetAccounts() == old(GetAccounts()) && GetRecipients() == old(GetRecipients())
    {
      this.phone := phone;
    }

    /** Appends `account` and makes this customer its owner. */
    method AddAccount(account: Account)
      modifies this`accounts, account`customer
      ensures accounts == old(accounts) + [account]
      ensures account.customer == this
      ensures recipients == old(recipients)
      ensures old(OwnsChildren()) ==> OwnsChildren()
    {
      accounts := accounts + [account];
      account.SetCustomer(this);
    }

    /** Removes the first occurrence of `account`, if any, and clears its owner. Ownership
        stays consistent when no copy of the account is left, that is, when it was listed
        at most once (`Lists.RemoveFirstLeavesNoCopy`). */
    method RemoveAccount(account: Account)
      modifies this`accounts, account`customer
      ensures accounts == Lists.RemoveFirst(old(accounts), account)
      ensures account.customer == null
      ensures recipients == old(recipients)
      ensures old(OwnsChildren()) && account !in accounts ==> OwnsChildren()
    {
      ghost var before: seq<Account> := accounts;
      accounts := Lists.RemoveFirst(accounts, account);
      account.SetCustomer(null);
      assert recipients == old(recipients);
      assert OwnsRecipients() == old(OwnsRecipients());
      if old(OwnsChildren()) && account !in accounts {
        Lists.RemainingWereListed(before, account);
        forall child | child in accounts ensures child.customer == this {
          assert child in before;
        }
      }
    }

    /** Appends `recipient` and makes this customer its owner. */
    method AddRecipient(recipient: Recipient)
      modifies this`recipients, recipient`customer
      ensures recipients == old(recipients) + [recipient]
      ensures recipient.customer == this
      ensures accounts == old(accounts)
      ensures old(OwnsChildren()) ==> OwnsChildren()
    {
      recipients := recipients + [recipient];
      recipient.SetCustomer(this);
    }

    /** Removes the first occurrence of `recipient`, if any, and clears its owner. Ownership
        stays consistent when no copy of the recipient is left. */
    method RemoveRecipient(recipient: Recipient)
      modifies this`recipients, recipient`customer
      ensures recipients == Lists.RemoveFirst(old(recipients), recipient)
      ensures recipient.customer == null
      ensures accounts == old(accounts)
      ensures old(OwnsChildren()) && recipient !in recipients ==> OwnsChildren()
    {
      ghost var before: seq<Recipient> := recipients;
      recipients := Lists.RemoveFirst(recipients, recipient);
      recipient.SetCustomer(null);
      assert accounts == old(accounts);
      assert OwnsAccounts() == old(OwnsAccounts());
      if old(OwnsChildren()) && recipient !in recipients {
        Lists.RemainingWereListed(before, recipient);
        forall child | child in recipients ensures child.customer == this {
          assert child in before;
        }
      }
    }
  }

  /** A new customer given two freshly credited accounts lists them in the order they
      were added, each owned by the customer and holding its balance. */
  method AccountsKeepInsertionOrder(caBalance: int, saBalance: int)
    returns (ca: Account, sa: Account, listed: seq<Account>, first: int, second: int, owned: bool)
    ensures ca != sa && listed == [ca, sa]
    ensures first == caBalance && second == saBalance
    ensures owned
  {
    ca := new Account((b: int, a: int) => true, (b: int, a: int) => true, (b: int) => true);
    sa := new Account((b: int, a: int) => true, (b: int, a: int) => true, (b: int) => true);
    ca.Credit(caBalance);
    sa.Credit(saBalance);
    var customer := new Customer();
    customer.AddAccount(ca);
    customer.AddAccount(sa);
    listed := customer.GetAccounts();
    first, second := listed[0].balance, listed[1].balance;
    owned := listed[0].customer == customer && listed[1].customer == customer;
  }

  /** Removing the second of a customer's two accounts leaves exactly the first, still
      owned, while the removed one loses its owner. */
  method RemoveSecondOfTwoAccounts(firstBalance: int, secondBalance: int)
    returns (count: nat, remaining: int, remainingOwned: bool, removedOwned: bool)
    ensures count == 1 && remaining == firstBalance
    ensures remainingOwned && !removedOwned
  {
    var first := new Account((b: int, a: int) => true, (b: int, a: int) => true, (b: int) => true);
    var second := new Account((b: int, a: int) => true, (b: int, a: int) => true, (b: int) => true);
    first.Credit(firstBalance);
    second.Credit(secondBalance);
    var customer := new Customer();
    customer.AddAccount(first);
    customer.AddAccount(second);
    customer.RemoveAccount(customer.GetAccounts()[1]);
    var listed := customer.GetAccounts();
    count, remaining := |listed|, listed[0].balance;
    remainingOwned := listed[0].customer == customer;
    removedOwned := second.customer != null;
  }
}

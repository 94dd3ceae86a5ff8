/**
 * The payment-processor client: the bank list, sub-account registration and
 * split-transaction initialisation. Each call builds one HTTP request; the
 * processor's reply is an input, already classified as not ok, ok but failing
 * the response schema, or ok with the parsed payload. Only sub-account
 * registration writes to the store: the returned code onto the bank account row.
 */
module Paystack {
  import opened Common

  /** Percentage of a split transaction that goes to the supplier's sub-account. */
  const SUPPLIER_SHARE: int := 91
  /** Percentage of a split transaction that goes to the organiser's sub-account. */
  const ORGANISER_SHARE: int := 5
  /** What the split leaves to the platform (before the processor's fee). */
  const PLATFORM_REMAINDER: int := 100 - SUPPLIER_SHARE - ORGANISER_SHARE

  const BANKS_URL: string := "https://api.paystack.co/bank?country=south%20africa"
  const SUBACCOUNT_URL: string := "https://api.paystack.co/subaccount"
  const TRANSACTION_URL: string := "https://api.paystack.co/transaction/initialize"

  const BANKS_FAILED: string := "Failed to retrieve banks list"
  const SUBACCOUNT_FAILED: string := "Failed to create subaccount"
  const TRANSACTION_FAILED: string := "Failed to initiate split payment"
  /** What the store answers when the row to update does not exist. */
  const RECORD_NOT_FOUND: string := "Record to update not found."

  datatype HttpMethod = Get | Post

  /** One subaccount entry of a split. */
  datatype Share = Share(subaccount: string, share: int)

  datatype Split = Split(splitType: string, bearerType: string, subaccounts: seq<Share>)

  /** The JSON bodies the client sends. */
  datatype Body =
    | NoBody
    | SubAccountBody(businessName: string, settlementBank: string, accountNumber: string,
                     percentageCharge: int, primaryContactEmail: string)
    | TransactionBody(amount: int, email: string, callbackUrl: string, split: Split)

  /** A request: method, URL, the Authorization header if any, and the body. The content type is always JSON. */
  datatype Request = Request(verb: HttpMethod, url: string, authorization: Option<string>, body: Body)

  /** The processor's reply: not ok, ok with a body failing the schema, or ok with the parsed payload. */
  datatype Response<P> = NotOk(text: string) | Malformed | Ok(payload: P)

  /**
   * How a call ends unsuccessfully: a thrown `Error` with its message, or the
   * 400 response `invariantResponse` throws when the schema check fails.
   */
  datatype Failure = Thrown(message: string) | Rejected(status: int)

  datatype Outcome<T> = Returned(value: T) | Failed(failure: Failure)

  /** The request sent and how the call ended. */
  datatype Exchange<T> = Exchange(sent: Request, outcome: Outcome<T>)

  /**
   * The check every endpoint applies to the reply: a reply that is not ok
   * throws the endpoint's message, one failing the schema is rejected with
   * 400, and only a well-formed success yields its payload.
   */
  function Expect<P>(r: Response<P>, failMessage: string): (o: Outcome<P>)
    ensures o.Returned? <==> r.Ok?
    ensures o.Returned? ==> o.value == r.payload
    ensures r.NotOk? ==> o == Failed(Thrown(failMessage))
    ensures r.Malformed? ==> o == Failed(Rejected(400))
  {
    match r
    case NotOk(_) => Failed(Thrown(failMessage))
    case Malformed => Failed(Rejected(400))
    case Ok(p) => Returned(p)
  }

  function Bearer(secretKey: string): string {
    "Bearer " + secretKey
  }

  // ---------------------------------------------------------------------
  // The bank list.

  datatype Bank = Bank(code: string, name: string)

  /** `getBanks`: an unauthenticated GET; a good reply's `data` array is returned unchanged. */
  function GetBanks(r: Response<seq<Bank>>): (x: Exchange<seq<Bank>>)
    ensures x.sent == Request(Get, BANKS_URL, None, NoBody)
    ensures x.outcome.Returned? <==> r.Ok?
    ensures x.outcome.Returned? ==> x.outcome.value == r.payload
    ensures r.NotOk? ==> x.outcome == Failed(Thrown(BANKS_FAILED))
    ensures r.Malformed? ==> x.outcome == Failed(Rejected(400))
  {
    Exchange(Request(Get, BANKS_URL, None, NoBody), Expect(r, BANKS_FAILED))
  }

  // ---------------------------------------------------------------------
  // Sub-accounts.

  /** A bank account row; the account number is a big integer. */
  datatype BankAccount = BankAccount(id: string, businessName: string, bank: string, accountNumber: int,
                                     paystackSubAccount: Option<string>, ownerId: string)

  /** The registration request for an account. */
  function SubAccountRequest(secretKey: string, ownerEmail: string, account: BankAccount, percentage: int)
    : (req: Request)
    ensures req.verb == Post && req.url == SUBACCOUNT_URL && req.authorization == Some(Bearer(secretKey))
    ensures req.body.SubAccountBody?
    ensures req.body.businessName == account.businessName && req.body.settlementBank == account.bank
    ensures ParseDecimal(req.body.accountNumber) == Some(account.accountNumber)
    ensures req.body.percentageCharge == percentage && req.body.primaryContactEmail == ownerEmail
  {
    DecimalRoundTrip(account.accountNumber);
    Request(Post, SUBACCOUNT_URL, Some(Bearer(secretKey)),
            SubAccountBody(account.businessName, account.bank, DecimalString(account.accountNumber),
                           percentage, ownerEmail))
  }

  /** The bank account rows. */
  class BankAccountStore {
    var accounts: map<string, BankAccount>

    constructor (accounts: map<string, BankAccount>)
      ensures this.accounts == accounts
    {
      this.accounts := accounts;
    }

    /**
     * `addSubAccount`: always registers, whatever the account already holds.
     * On a well-formed success the returned code is written onto exactly the
     * row with the account's id and returned; on any failure nothing is written.
     */
    method AddSubAccount(secretKey: string, ownerEmail: string, account: BankAccount, percentage: int,
                         response: Response<string>)
      returns (x: Exchange<string>)
      modifies this
      ensures x.sent == SubAccountRequest(secretKey, ownerEmail, account, percentage)
      ensures !response.Ok? ==> x.outcome == Expect(response, SUBACCOUNT_FAILED) && accounts == old(accounts)
      ensures response.Ok? && account.id in old(accounts) ==>
        && x.outcome == Returned(response.payload)
        && accounts == old(accounts)[account.id := old(accounts)[account.id].(paystackSubAccount := Some(response.payload))]
      ensures response.Ok? && account.id !in old(accounts) ==>
        x.outcome == Failed(Thrown(RECORD_NOT_FOUND)) && accounts == old(accounts)
    {
      var sent := SubAccountRequest(secretKey, ownerEmail, account, percentage);
      var checked := Expect(response, SUBACCOUNT_FAILED);
      if checked.Failed? {
        return Exchange(sent, checked);
      }
      var code := checked.value;
      if account.id !in accounts {
        return Exchange(sent, Failed(Thrown(RECORD_NOT_FOUND)));
      }
      accounts := accounts[account.id := accounts[account.id].(paystackSubAccount := Some(code))];
      x := Exchange(sent, Returned(code));
    }
  }

  // ---------------------------------------------------------------------
  // Split transactions.

  /** The sum of the shares of a split. */
  function ShareTotal(s: seq<Share>): int {
    if s == [] then 0 else s[0].share + ShareTotal(s[1..])
  }

  /** The initialisation request: the amount in minor units, and a percentage split borne by the account. */
  function TransactionRequest(secretKey: string, amount: int, email: string, callbackUrl: string,
                              supplierSubAccount: string, organiserSubAccount: string): (req: Request)
    ensures req.verb == Post && req.url == TRANSACTION_URL && req.authorization == Some(Bearer(secretKey))
    ensures req.body.TransactionBody?
    ensures req.body.amount % 100 == 0 && req.body.amount / 100 == amount
    ensures req.body.email == email && req.body.callbackUrl == callbackUrl
    ensures req.body.split.splitType == "percentage" && req.body.split.bearerType == "account"
    ensures req.body.split.subaccounts ==
      [Share(supplierSubAccount, SUPPLIER_SHARE), Share(organiserSubAccount, ORGANISER_SHARE)]
  {
    Request(Post, TRANSACTION_URL, Some(Bearer(secretKey)),
            TransactionBody(amount * 100, email, callbackUrl,
              Split("percentage", "account",
                    [Share(supplierSubAccount, SUPPLIER_SHARE), Share(organiserSubAccount, ORGANISER_SHARE)])))
  }

  /** `startTransaction`: returns exactly the parsed authorisation URL and writes nothing. */
  function StartTransaction(secretKey: string, amount: int, email: string, callbackUrl: string,
                            supplierSubAccount: string, organiserSubAccount: string,
                            r: Response<string>): (x: Exchange<string>)
    ensures x.sent == TransactionRequest(secretKey, amount, email, callbackUrl, supplierSubAccount, organiserSubAccount)
    ensures x.outcome.Returned? <==> r.Ok?
    ensures x.outcome.Returned? ==> x.outcome.value == r.payload
    ensures r.NotOk? ==> x.outcome == Failed(Thrown(TRANSACTION_FAILED))
    ensures r.Malformed? ==> x.outcome == Failed(Rejected(400))
  {
    Exchange(TransactionRequest(secretKey, amount, email, callbackUrl, supplierSubAccount, organiserSubAccount),
             Expect(r, TRANSACTION_FAILED))
  }

  /** The two shares sum to 96, leaving 4 percent to the platform. */
  lemma SplitSharesSum(secretKey: string, amount: int, email: string, callbackUrl: string,
                       supplierSubAccount: string, organiserSubAccount: string)
    ensures var req := TransactionRequest(secretKey, amount, email, callbackUrl, supplierSubAccount, organiserSubAccount);
      && |req.body.split.subaccounts| == 2
      && ShareTotal(req.body.split.subaccounts) == 96
      && 100 - ShareTotal(req.body.split.subaccounts) == PLATFORM_REMAINDER == 4
  {
    var s := [Share(supplierSubAccount, SUPPLIER_SHARE), Share(organiserSubAccount, ORGANISER_SHARE)];
    assert s[1..][1..] == [];
    assert ShareTotal(s[1..]) == ORGANISER_SHARE + ShareTotal(s[1..][1..]);
    assert ShareTotal(s) == SUPPLIER_SHARE + ShareTotal(s[1..]);
  }

  /** With the test double's reply, the transaction yields the fake checkout page. */
  lemma MockedCheckoutPage(secretKey: string, amount: int, email: string, callbackUrl: string,
                           supplierSubAccount: string, organiserSubAccount: string)
    ensures StartTransaction(secretKey, amount, email, callbackUrl, supplierSubAccount, organiserSubAccount,
                             Response.Ok("/fake-paystack-page")).outcome == Returned("/fake-paystack-page")
  {
  }

  // ---------------------------------------------------------------------
  // Decimal rendering of the account number (`BigInt.prototype.toString`).

  predicate IsDigit(c: char) {
    '0' <= c <= '9'
  }

  function DigitChar(d: nat): (c: char)
    requires d < 10
    ensures IsDigit(c)
  {
    (48 + d) as char
  }

  function DigitValue(c: char): (d: nat)
    requires IsDigit(c)
    ensures d < 10
  {
    c as int - 48
  }

  predicate AllDigits(s: string) {
    forall i :: 0 <= i < |s| ==> IsDigit(s[i])
  }

  /** The shortest decimal digits of `n`: no leading zero unless `n` is zero. */
  function NatDigits(n: nat): (s: string)
    ensures |s| >= 1 && AllDigits(s)
    ensures s[0] == '0' ==> n == 0
    decreases n
  {
    if n < 10 then [DigitChar(n)] else NatDigits(n / 10) + [DigitChar(n % 10)]
  }

  /** The value of a string of decimal digits. */
  function DigitsValue(s: string): nat
    requires AllDigits(s)
    decreases |s|
  {
    if s == [] then 0 else DigitsValue(s[..|s| - 1]) * 10 + DigitValue(s[|s| - 1])
  }

  /** A big integer in base ten, with a leading minus sign when negative. */
  function DecimalString(n: int): string {
    if n < 0 then "-" + NatDigits(-n) else NatDigits(n)
  }

  /**
   * Reads a decimal numeral with an optional leading minus sign, so that what
   * `DecimalString` writes reads back. It also reads numerals that
   * `DecimalString` never writes, such as "007" and "-0"; a string that is
   * empty, a bare "-" or holds any other character is refused.
   */
  function ParseDecimal(s: string): Option<int> {
    if |s| > 1 && s[0] == '-' && AllDigits(s[1..]) then (var v: int := DigitsValue(s[1..]); Some(-v))
    else if |s| > 0 && AllDigits(s) then Some(DigitsValue(s))
    else None
  }

  lemma {:induction false} NatDigitsRoundTrip(n: nat)
    ensures DigitsValue(NatDigits(n)) == n
    decreases n
  {
    var s := NatDigits(n);
    if n >= 10 {
      NatDigitsRoundTrip(n / 10);
      assert s[..|s| - 1] == NatDigits(n / 10);
      assert DigitValue(s[|s| - 1]) == n % 10;
    } else {
      assert s[..|s| - 1] == [];
    }
  }

  /** A digit string reads as its value. */
  lemma ParseDigits(d: string)
    requires |d| > 0 && AllDigits(d)
    ensures ParseDecimal(d) == Some(DigitsValue(d))
  {
    assert IsDigit(d[0]);
  }

  /** A minus sign before a digit string reads as the negated value. */
  lemma ParseNegated(d: string)
    requires |d| > 0 && AllDigits(d)
    ensures ParseDecimal("-" + d) == Some(0 - DigitsValue(d) as int)
  {
    var s := "-" + d;
    assert s[0] == '-';
    assert s[1..] == d;
  }

  /** The account number sent is the decimal rendering of the stored one, and reads back to it. */
  lemma DecimalRoundTrip(n: int)
    ensures ParseDecimal(DecimalString(n)) == Some(n)
  {
    if n < 0 {
      NatDigitsRoundTrip(-n);
      ParseNegated(NatDigits(-n));
    } else {
      NatDigitsRoundTrip(n);
      ParseDigits(NatDigits(n));
    }
  }
}

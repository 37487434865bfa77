/**
 * The Gmail-accounts page (app/components/gmail-account-management.tsx): the
 * per-account processing rate, the summary cards and the set of accounts
 * whose sync request is in flight.
 */
module GmailAccounts {
  import opened Seqs
  import Numeric
  import Http

  datatype GmailAccount = GmailAccount(id: string, email: string, isConnected: bool, totalEmails: int, processedEmails: int)

  /** The account's counts are a share of a whole. */
  predicate Consistent(a: GmailAccount) {
    0 <= a.processedEmails <= a.totalEmails
  }

  /** `calculateProcessingRate`: 0 for an empty mailbox, otherwise the rounded percentage processed. */
  function ProcessingRate(a: GmailAccount): int {
    if a.totalEmails == 0 then 0 else Numeric.Percent(a.processedEmails, a.totalEmails)
  }

  /** The rate of a consistent account is a percentage; a fully processed mailbox is 100. */
  lemma ProcessingRateBounds(a: GmailAccount)
    requires Consistent(a)
    ensures 0 <= ProcessingRate(a) <= 100
    ensures a.totalEmails > 0 && a.processedEmails == a.totalEmails ==> ProcessingRate(a) == 100
    ensures a.processedEmails == 0 ==> ProcessingRate(a) == 0
  {
    Numeric.PercentBounds(a.processedEmails, a.totalEmails);
    if a.totalEmails > 0 {
      Numeric.PercentEnds(a.totalEmails);
    }
  }

  function TotalOf(a: GmailAccount): int { a.totalEmails }
  function ProcessedOf(a: GmailAccount): int { a.processedEmails }
  function ConnectedOf(a: GmailAccount): bool { a.isConnected }

  /** The "Total Emails" card. */
  function TotalEmailsCard(accounts: seq<GmailAccount>): int {
    Sum(TotalOf, accounts)
  }

  /** The "Processed" card. */
  function ProcessedCard(accounts: seq<GmailAccount>): int {
    Sum(ProcessedOf, accounts)
  }

  /** With consistent accounts the processed card never exceeds the total card, and neither is negative. */
  lemma CardsConsistent(accounts: seq<GmailAccount>)
    requires forall a :: a in accounts ==> Consistent(a)
    ensures 0 <= ProcessedCard(accounts) <= TotalEmailsCard(accounts)
  {
    SumBounded(ProcessedOf, TotalOf, accounts);
    SumNonNegative(ProcessedOf, accounts);
  }

  /** The active count under "Connected Accounts". */
  function ActiveCount(accounts: seq<GmailAccount>): (n: nat)
    ensures n <= |accounts|
  {
    Count(ConnectedOf, accounts)
  }

  /** The "Processing Rate" card: the rounded mean of the account rates, 0 without accounts. */
  function AverageRate(accounts: seq<GmailAccount>): int {
    if |accounts| > 0 then Numeric.RoundDiv(Sum(ProcessingRate, accounts), |accounts|) else 0
  }

  /** With consistent accounts the mean rate is a percentage too. */
  lemma AverageRateBounds(accounts: seq<GmailAccount>)
    requires forall a :: a in accounts ==> Consistent(a)
    ensures 0 <= AverageRate(accounts) <= 100
  {
    if |accounts| > 0 {
      forall a | a in accounts ensures 0 <= ProcessingRate(a) <= 100 {
        ProcessingRateBounds(a);
      }
      SumNonNegative(ProcessingRate, accounts);
      SumAtMostCount(ProcessingRate, accounts, 100);
      Numeric.RoundDivBetween(Sum(ProcessingRate, accounts), |accounts|, 0, 100);
    }
  }

  /** Accounts that are all fully processed average to 100. */
  lemma {:induction false} FullyProcessedAverage(accounts: seq<GmailAccount>)
    requires |accounts| > 0
    requires forall a :: a in accounts ==> Consistent(a) && a.totalEmails > 0 && a.processedEmails == a.totalEmails
    ensures AverageRate(accounts) == 100
  {
    SumOfHundreds(accounts);
    Numeric.RoundDivUnique(100 * |accounts|, |accounts|, 100);
  }

  lemma {:induction false} SumOfHundreds(accounts: seq<GmailAccount>)
    requires forall a :: a in accounts ==> Consistent(a) && a.totalEmails > 0 && a.processedEmails == a.totalEmails
    ensures Sum(ProcessingRate, accounts) == 100 * |accounts|
  {
    if accounts != [] {
      assert accounts[0] in accounts;
      ProcessingRateBounds(accounts[0]);
      SumOfHundreds(accounts[1..]);
    }
  }

  // ---------------------------------------------------------------- the sync route

  /**
   * What `POST /api/gmail-accounts/[id]/sync` writes, as written: the
   * processed count grows by `floor(random * 20) + 5`, given here as `draw`
   * in `0..19`, and the total is left alone.
   */
  function SyncAsWritten(a: GmailAccount, draw: nat): (b: GmailAccount)
    requires draw < 20
    ensures b.totalEmails == a.totalEmails && b.id == a.id && b.email == a.email
    ensures a.processedEmails + 5 <= b.processedEmails <= a.processedEmails + 24
  {
    a.(processedEmails := a.processedEmails + draw + 5)
  }

  /**
   * One sync of an account without mail, or of a fully processed one, puts
   * the Processed card above the Total card and the rate above 100.
   */
  lemma SyncBreaksCards()
    ensures var empty := SyncAsWritten(GmailAccount("a1", "ann@example.com", true, 0, 0), 0);
      ProcessedCard([empty]) == 5 > TotalEmailsCard([empty]) == 0
    ensures var full := SyncAsWritten(GmailAccount("a2", "bob@example.com", true, 10, 10), 0);
      ProcessingRate(full) == 150
  {
    var empty := SyncAsWritten(GmailAccount("a1", "ann@example.com", true, 0, 0), 0);
    assert [empty][1..] == [];
    assert ProcessedCard([empty]) == ProcessedOf(empty) + Sum(ProcessedOf, []);
    assert TotalEmailsCard([empty]) == TotalOf(empty) + Sum(TotalOf, []);
    var full := SyncAsWritten(GmailAccount("a2", "bob@example.com", true, 10, 10), 0);
    assert full.processedEmails == 15 && full.totalEmails == 10;
    assert ProcessingRate(full) == Numeric.RoundDiv(1500, 10) == 3010 / 20;
  }

  /** The sync as evidently intended: the processed count never passes the total. */
  function SyncCapped(a: GmailAccount, draw: nat): (b: GmailAccount)
    requires draw < 20
    ensures b.totalEmails == a.totalEmails && b.id == a.id && b.email == a.email
    ensures Consistent(a) ==> Consistent(b) && a.processedEmails <= b.processedEmails
    ensures a.processedEmails + draw + 5 <= a.totalEmails ==> b == SyncAsWritten(a, draw)
  {
    var grown := a.processedEmails + draw + 5;
    a.(processedEmails := if grown <= a.totalEmails then grown else a.totalEmails)
  }

  /** With the capped sync the cards stay consistent however many syncs run. */
  lemma {:induction false} CappedSyncsKeepCards(accounts: seq<GmailAccount>, i: int, draw: nat)
    requires draw < 20 && 0 <= i < |accounts|
    requires forall a :: a in accounts ==> Consistent(a)
    ensures var after := accounts[i := SyncCapped(accounts[i], draw)];
      0 <= ProcessedCard(after) <= TotalEmailsCard(after) && 0 <= AverageRate(after) <= 100
  {
    var after := accounts[i := SyncCapped(accounts[i], draw)];
    assert accounts[i] in accounts;
    forall a | a in after ensures Consistent(a) {
      var j :| 0 <= j < |after| && after[j] == a;
      if j != i {
        assert accounts[j] in accounts;
      }
    }
    CardsConsistent(after);
    AverageRateBounds(after);
  }

  /** The page state `handleSync` touches. */
  class AccountsPanel {
    var syncingAccounts: set<string>
    var toasts: seq<Http.Toast>

    constructor ()
      ensures syncingAccounts == {} && toasts == []
    {
      syncingAccounts := {};
      toasts := [];
    }

    /**
     * `handleSync`. `reachable` is false when the request throws, `ok` tells
     * a 2xx answer and `errorBody` is the body of a failure. The id is in the
     * set while the request is out (`syncingWhileSent`) and is removed on
     * every outcome.
     */
    method HandleSync(accountId: string, reachable: bool, ok: bool, errorBody: Http.ErrorBody)
      returns (syncingWhileSent: bool)
      modifies this
      ensures syncingWhileSent
      ensures syncingAccounts == old(syncingAccounts) - {accountId}
      ensures !reachable ==> toasts == old(toasts) + [Http.Failure("An error occurred while syncing the account")]
      ensures reachable && ok ==> toasts == old(toasts) + [Http.Success("Account sync started successfully")]
      ensures reachable && !ok ==>
        toasts == old(toasts) + [Http.Failure(Http.ToastAsWritten(errorBody, "Failed to sync account"))]
    {
      syncingAccounts := syncingAccounts + {accountId};
      syncingWhileSent := accountId in syncingAccounts;
      if !reachable {
        toasts := toasts + [Http.Failure("An error occurred while syncing the account")];
      } else if ok {
        toasts := toasts + [Http.Success("Account sync started successfully")];
      } else {
        toasts := toasts + [Http.Failure(Http.ToastAsWritten(errorBody, "Failed to sync account"))];
      }
      syncingAccounts := syncingAccounts - {accountId};
    }
  }
}

/**
 * The two folder names that hold every letter of "trades" and still do
 * not contain the word: its letters never line up in them.
 */
module Words {
  import opened Text

  /**
   * "trades" does not occur in "ledger_updates": the word's 't' can only sit
   * on the one 't' of the name (index 11), and the word does not match there.
   */
  lemma LedgerLacksTrades()
    ensures !Contains("ledger_updates", "trades")
  {
    var s := "ledger_updates";
    assert s[..11] == "ledger_upda" && s[12..] == "es";
    OnlyAt(s, "trades", 0, 11);
  }

  /** "trades" does not occur in "total_accrued_fees" although every letter of it does. */
  lemma FeesLackTrades()
    ensures !Contains("total_accrued_fees", "trades")
  {
    var s := "total_accrued_fees";
    assert s[..12] == "total_accrue" && s[13..] == "_fees";
    assert s[9..15][0] == 'r';
    OnlyAt(s, "trades", 3, 12);
  }

}

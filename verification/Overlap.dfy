/** Why the stored state is only claimed to be true when the handlers of a payment do not
    overlap: the row has no version check, so a stale write can hide a debit. */
module Overlap {
  import opened Domain
  import opened Bank
  import opened SagaMachine
  import opened SagaSteps
  import opened SagaSerialised
  import V = Verification

  /** A handler reads that the user is not verified; the user is verified; another handler of the
      same payment debits the wallet; then the first one stores FAILED over it. */
  lemma StaleFailureHidesDebit(w: World, p: PaymentId, verified: V.Rows)
    requires p in w.sagas && w.sagas[p].start.pid == p && w.sagas[p].state.Started?
    requires var user := w.sagas[p].start.user;
      && !(user in w.verifications && w.verifications[user].status.Verified?)
      && user in verified && verified[user].status.Verified?
    requires CallDebit(w.bank, w.sagas[p].start).1.Ok?
    ensures var stale := Exec(w, CheckVerification(w.sagas[p])).1;
      var debited := RunFor(w.(verifications := verified), Recover(p), 4).0;
      var w' := Exec(debited, stale).0;
      p in w'.sagas && w'.sagas[p].state.Failed? && p in w'.bank.debits && w'.bank.comps == w.bank.comps
  {
    hide RunFor, Left, CallDebit;
    var row := w.sagas[p];
    var v := w.(verifications := verified);
    var checked := To(v, row, VerificationChecked);
    Entered(v, Recover(p), 4);
    Checked(v, row, 3);
    Persisted(v, checked, 2);
    DebitAnswers(Save(v, checked), checked, 1);
    CallDebitShape(w.bank, row.start);
    var (b, r) := CallDebit(w.bank, row.start);
    Stopped(Save(v, checked).(bank := b), Persist(To(v, checked, WalletDebited).(debitId := r.value.id)), 0);
  }
}

/**
 What each step of a service does to the item and the rows it is about, column by column, and what it leaves alone.
 */
module Effects {
  import opened Options
  import opened LeaseQueue
  import opened Pipeline
  import opened Deliveries

  /** Of the items only `x` may have changed. */
  ghost predicate OnlyItem(items: Items, items': Items, x: ItemId) {
    items'.Keys == items.Keys && forall y | y in items && y != x :: items'[y] == items[y]
  }

  /** Of the rows only that of `x` may have changed. */
  ghost predicate OnlyRow(rows: Table, rows': Table, x: ItemId) {
    && (forall y | y != x :: y in rows' <==> y in rows)
    && forall y | y in rows && y != x :: rows'[y] == rows[y]
  }

  // ---------- Items ----------

  /** A failed attempt, and the quarantine, leave FAILED; the analysis and the date stay. */
  lemma FailureMarks(c: Config, s: World, w: WorkerId, a: AnalyzerStep)
    requires AnalyzerEnabled(s, w, a) && (a.Stumble? || a.Poison?)
    ensures var x, items, items' := s.analyzers[w].hold.item, s.items, AnalyzerApply(c, s, w, a).items;
            && OnlyItem(items, items', x)
            && (x in items && !items[x].status.Dispatched? ==>
                  items'[x].status.Failed? && items'[x].analyzed == items[x].analyzed
                  && items'[x].dispatchedAt == items[x].dispatchedAt)
            && (x in items && items[x].status.Dispatched? ==> items'[x] == items[x])
  {
  }

  /** A fresh analysis is stored with the item, which becomes ANALYZED unless it is DISPATCHED. */
  lemma AnalysisIsStored(c: Config, s: World, w: WorkerId, out: Payload)
    requires AnalyzerEnabled(s, w, Mark) && s.analyzers[w].pc == Marking(out)
    ensures var x, items, items' := s.analyzers[w].hold.item, s.items, AnalyzerApply(c, s, w, Mark).items;
            && OnlyItem(items, items', x)
            && (x in items && !items[x].status.Dispatched? ==>
                  items'[x] == Item(Analyzed, Some(out), items[x].dispatchedAt))
            && (x in items && items[x].status.Dispatched? ==> items'[x] == items[x])
  {
  }

  /** A failed delivery leaves FAILED, with the analysis and the date as they were. */
  lemma MissMarks(c: Config, s: World, d: WorkerId, x: ItemId, cancelled: bool)
    requires DispatcherEnabled(s, d, Miss(x, cancelled))
    ensures var items, items' := s.items, DispatcherApply(c, s, d, Miss(x, cancelled)).items;
            && OnlyItem(items, items', x)
            && (x in items ==> items'[x] == Item(Failed, items[x].analyzed, items[x].dispatchedAt))
  {
  }

  /** A delivery leaves DISPATCHED with its date. */
  lemma DeliveryIsDated(c: Config, s: World, d: WorkerId, t: Time)
    requires DispatcherEnabled(s, d, Confirm(t))
    ensures var x, items, items' := s.dispatchers[d].hold.item, s.items, DispatcherApply(c, s, d, Confirm(t)).items;
            && OnlyItem(items, items', x)
            && (x in items ==> items'[x] == Item(Dispatched, items[x].analyzed, Some(t)))
  {
  }

  /** A publication leaves NEW, a failed one FAILED; the analysis and the date stay. */
  lemma PublicationMarks(s: World, r: ReaderId, a: ReaderStep)
    requires ReaderEnabled(s, r, a) && (a.Publish? || a.PublishFault?)
    ensures var x, items, items' := s.readers[r].item, s.items, ReaderApply(s, r, a).items;
            && OnlyItem(items, items', x)
            && (x in items ==>
                  items'[x] == Item(if a.Publish? then New else Failed, items[x].analyzed, items[x].dispatchedAt))
  {
  }

  /** A requeue reopens the item: ANALYZED when an analysis is stored, NEW when none is, and without a date. */
  lemma RequeueReopens(s: World, b: AdminId, x: ItemId, raw: Payload, t: Time)
    requires AdminEnabled(s, b, Requeue(x, raw, t))
    ensures var items, items' := s.items, AdminApply(s, b, Requeue(x, raw, t)).items;
            && OnlyItem(items, items', x)
            && (x in items ==>
                  items'[x] == Item(if s.admins[b].stored.Some? then Analyzed else New, items[x].analyzed, None))
  {
  }

  /** Nothing else touches an item that stays. */
  lemma OthersLeaveItems(c: Config, s: World, e: Event, x: ItemId)
    requires CanStep(s, e) && x in s.items && !Forgets(e, x)
    requires e.A? ==> !e.a.Stumble? && !e.a.Poison? && !e.a.Mark?
    requires e.D? ==> !e.b.Miss? && !e.b.Confirm?
    requires e.R? ==> !e.c.Publish? && !e.c.PublishFault?
    requires e.W? ==> !e.e.Requeue?
    ensures x in Next(c, s, e).items && Next(c, s, e).items[x] == s.items[x]
  {
  }

  /** Items come by an insert, as NEW, and go by a deletion, with both rows, or by a clean-up, without them. */
  lemma ItemsComeAndGo(c: Config, s: World, e: Event, x: ItemId)
    requires CanStep(s, e)
    ensures x in Next(c, s, e).items <==> (x in s.items && !Forgets(e, x)) || (e.R? && e.c.Insert? && e.c.x == x)
    ensures e.R? && e.c.Insert? && e.c.x == x ==> Next(c, s, e).items[x] == Item(New, None, None)
    ensures e.W? && e.e == Delete(x) ==> x !in Next(c, s, e).aq && x !in Next(c, s, e).dq
  {
  }

  // ---------- Rows ----------

  /** A queue row that anybody may claim, with this payload. */
  predicate Waits(rows: Table, x: ItemId, p: Payload) {
    x in rows && rows[x].state.Queued? && rows[x].payload == p && rows[x].leaseOwner.None? && rows[x].leaseUntil.None?
  }

  /** What a forward, a publication and a requeue put into their queue, and that they leave the other one alone. */
  lemma ForwardWaits(c: Config, s: World, w: WorkerId, t: Time)
    requires AnalyzerEnabled(s, w, Forward(t))
    ensures var s', x := AnalyzerApply(c, s, w, Forward(t)), s.analyzers[w].hold.item;
            Waits(s'.dq, x, s.analyzers[w].pc.out) && OnlyRow(s.dq, s'.dq, x) && s'.aq == s.aq
  {
  }

  lemma PublicationWaits(s: World, r: ReaderId, t: Time)
    requires ReaderEnabled(s, r, Publish(t))
    ensures var s', x := ReaderApply(s, r, Publish(t)), s.readers[r].item;
            Waits(s'.aq, x, s.readers[r].payload) && OnlyRow(s.aq, s'.aq, x) && s'.dq == s.dq
  {
  }

  lemma RequeueWaits(s: World, b: AdminId, x: ItemId, raw: Payload, t: Time)
    requires AdminEnabled(s, b, Requeue(x, raw, t))
    ensures var s', stored := AdminApply(s, b, Requeue(x, raw, t)), s.admins[b].stored;
            && (stored.None? ==> Waits(s'.aq, x, raw) && OnlyRow(s.aq, s'.aq, x) && s'.dq == s.dq)
            && (stored.Some? ==> Waits(s'.dq, x, stored.value) && OnlyRow(s.dq, s'.dq, x) && s'.aq == s.aq)
  {
  }

  /** A claim leases the row to its worker until the deadline; payload, place and first completion stay. */
  lemma ClaimLeases(lease: Time, s: QueueState, w: WorkerId, x: ItemId, t: Time)
    requires Enabled(s, Claimed(w, x, t))
    ensures var rows, s' := s.rows, Apply(lease, s, Claimed(w, x, t));
            && OnlyRow(rows, s'.rows, x)
            && s'.rows[x] == Row(rows[x].payload, Leased, rows[x].enqueuedAt, Some(w), Some(t + lease),
                                 rows[x].deliveryCount + 1, rows[x].doneAt)
            && s'.holds[w] == Hold(x, rows[x].payload, rows[x].deliveryCount + 1, t + lease)
  {
  }

  /** The owner's finish closes the row, at this time if for the first time; its release queues it again. */
  lemma OwnersClose(lease: Time, s: QueueState, e: QueueEvent)
    requires Enabled(s, e) && (e.Finished? || e.Released?)
    ensures var x, rows, rows' := s.holds[e.w].item, s.rows, Apply(lease, s, e).rows;
            && OnlyRow(rows, rows', x)
            && (!OwnedBy(rows, x, e.w) ==> rows' == rows)
            && (OwnedBy(rows, x, e.w) && e.Released? ==>
                  rows'[x] == Row(rows[x].payload, Queued, rows[x].enqueuedAt, None, None, rows[x].deliveryCount,
                                  rows[x].doneAt))
            && (OwnedBy(rows, x, e.w) && e.Finished? && rows[x].doneAt.None? ==> rows'[x].doneAt == Some(e.t))
            && (OwnedBy(rows, x, e.w) && e.Finished? ==>
                  rows'[x] == Row(rows[x].payload, Done, rows[x].enqueuedAt, None, None, rows[x].deliveryCount,
                                  rows'[x].doneAt))
  {
  }
}

/** What each request does to the store and to Proxmox: the steps of the cluster act on what was asked. */
module RequestEffects {
  import opened Wrappers
  import opened ProviderId
  import opened Machines
  import opened Reconcile
  import opened PassTraces
  import opened Cluster

  /** The request that Machine k's pass is about to make. */
  function Asked(w: World, k: Key): Request
    requires k in w.cells && w.cells[k].pass.At?
  {
    RequestOf(w.cells[k].pass.pc, w.cells[k].pass.copy)
  }

  predicate Acting(w: World, k: Key, o: Outcome) {
    k in w.cells && w.cells[k].pass.At? && w.cells[k].hist != [] && Enabled(w, Act(k, o))
  }

  /** The store takes what an update carries, of the current version only; nothing else changes an object. */
  lemma UpdatesAreStored(w: World, k: Key, o: Outcome)
    requires Acting(w, k, o)
    ensures var q, h, h' := Asked(w, k), w.cells[k].hist, Apply(w, Act(k, o)).cells[k].hist;
      if q.UpdateStatus? && (o.Landed? || o.LostReply?) then
        q.copy.version == |h| - 1 && h' == h + [Last(h).(status := q.copy.obj.status)]
      else if q.UpdateObject? && (o.Landed? || o.LostReply?) then
        q.copy.version == |h| - 1 && h' == h + [Last(h).(finalizer := q.copy.obj.finalizer)]
      else h' == h
    ensures var q, h := Asked(w, k), w.cells[k].hist;
      && (o.Landed? ==> Observe(w.cells[k], o) == Stored(Copy(|h|, Last(Apply(w, Act(k, o)).cells[k].hist))))
      && (q.GetMachine? && o.Read? ==> o.version < |h| && Observe(w.cells[k], o) == Got(Copy(o.version, h[o.version])))
  {
    hide Resume, ServiceAllows, VmsAfter, CallsAfter, DoomedAfter, NetsAfter;
  }

  /** A lookup is answered for the slot it names, and a stop needs a VM there. */
  lemma LookupsAreTruthful(w: World, k: Key, o: Outcome)
    requires Acting(w, k, o)
    ensures var q, r := Asked(w, k), Observe(w.cells[k], o);
      && (q.GetVm? && r.Found? ==> q.slot in w.vms)
      && (q.GetVm? && r.Missing? ==> q.slot !in w.vms)
      && (q.StopVm? && r.Done? ==> q.slot in w.vms)
  {
    hide Resume, Begin;
  }

  /** The VM that is made is the one asked for, and only a CreateVm request asks for one. */
  lemma CreationsAreLogged(w: World, k: Key, o: Outcome)
    requires Acting(w, k, o)
    ensures var q, w' := Asked(w, k), Apply(w, Act(k, o));
      if q.CreateVm? then
        && |w'.calls| == |w.calls| + 1 && w'.calls[..|w.calls|] == w.calls
        && var c := w'.calls[|w.calls|];
          c.key == k && c.slot == q.slot && c.net == q.net && (c.task.Abandoned? <==> o == Plain(Error))
      else |w'.calls| == |w.calls|
  {
    hide Resume, Begin, CellAct, StoreAllows, VmsAfter, DoomedAfter, NetsAfter;
  }

  /** A VM is condemned by a DeleteVm of its slot, and goes once the wait for that deletion is answered. */
  lemma DeletionsAreOrdered(w: World, k: Key, o: Outcome)
    requires Acting(w, k, o)
    ensures var q, w' := Asked(w, k), Apply(w, Act(k, o));
      && (if q.DeleteVm? && o != Plain(Error) then
            q.slot in w.vms && w'.doomed == w.doomed + {(q.slot, w.vms[q.slot])}
          else w'.doomed == w.doomed)
      && (w'.vms == w.vms ||
            (q.WaitForDelete? && o == Plain(Done)
             && exists slot :: slot in w.vms && w.vms[slot] == q.target && w'.vms == w.vms - {slot}))
      && (q.DeleteVm? && o.Plain? && o.reply.DeleteStarted? ==> o.reply.target == w.vms[q.slot])
  {
    hide Resume, Begin, CellAct, StoreAllows, CallsAfter, NetsAfter;
  }

  /** A NetworkConfiguration is made, with the MAC and VLAN sent, or deleted, by the request that says so. */
  lemma NetConfsAreOrdered(w: World, k: Key, o: Outcome)
    requires Acting(w, k, o)
    ensures var q, w' := Asked(w, k), Apply(w, Act(k, o));
      if q.CreateNetConf? && o != Plain(Error) then
        k in w'.nets && w'.nets == w.nets[k := w'.nets[k]] && (if k in w.nets then w'.nets[k] == w.nets[k] else
          w'.nets[k].net == q.net)
      else if q.DeleteNetConf? && o != Plain(Error) then w'.nets == w.nets - {k}
      else w'.nets == w.nets
  {
    hide Resume, Begin, CellAct, StoreAllows, CallsAfter, DoomedAfter, VmsAfter;
  }
}

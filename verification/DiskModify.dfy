/** Changing a virtual disk: the device a VBD holds is swapped by an eject and an insert on a
    session whose error flag is sticky. */
module DiskModify {
  import opened Wrappers
  import opened XenServer

  /** `vdi`: the UUID of the disk image the device holds, if it is not empty. */
  datatype Vbd = Vbd(vdi: Option<string>, userdevice: string, isCd: bool)

  datatype Vdi = Vdi(name: string, description: string, size: int)

  /** What the caller asks for; a missing field asks for nothing. An empty `vdiUuid` asks for
      the device to be emptied. */
  datatype Template = Template(vbdUuid: string, userdevice: Option<string>,
                               vdiUuid: Option<string>, name: Option<string>,
                               description: Option<string>, size: int)

  class Server {
    var ok: bool
    var fates: seq<bool>
    var vbds: map<string, Vbd>
    var vdis: map<string, Vdi>
    /** Whether only a CD drive's image may be ejected and inserted. */
    const removableOnly: bool

    constructor (removableOnly: bool, fates: seq<bool>, vbds: map<string, Vbd>, vdis: map<string, Vdi>)
      ensures this.removableOnly == removableOnly && this.fates == fates && ok
      ensures this.vbds == vbds && this.vdis == vdis
    {
      this.removableOnly := removableOnly;
      this.fates, this.vbds, this.vdis, ok := fates, vbds, vdis, true;
    }

    predicate Changeable(v: Vbd) {
      removableOnly ==> v.isCd
    }

    /** The device may be made to hold what is asked for, or holds it already. */
    predicate Reachable(v: Vbd, t: Template) {
      Changeable(v) || Requested(t, v.vdi) == v.vdi
    }

    /** One remote call; `accepted` is false when the server would refuse it. */
    method Call(accepted: bool) returns (success: bool)
      modifies this`ok, this`fates
      ensures success == ok
      ensures success <==> old(Link(ok, None, fates).Succeeds(accepted))
      ensures fates == [] || |fates| <= |old(fates)|
      ensures old(fates) == [] ==> fates == []
    {
      if ok {
        ok := accepted && (fates == [] || fates[0]);
        if fates != [] {
          fates := fates[1..];
        }
      }
      return ok;
    }

    method Eject(vbd: string)
      requires vbd in vbds
      modifies this`ok, this`fates, this`vbds
      ensures vbds == old(vbds)[vbd := if ok then old(vbds[vbd]).(vdi := None) else old(vbds[vbd])]
      ensures ok <==> old(Link(ok, None, fates).Succeeds(vbds[vbd].vdi.Some? && Changeable(vbds[vbd])))
      ensures old(fates) == [] ==> fates == []
    {
      var success := Call(vbds[vbd].vdi.Some? && Changeable(vbds[vbd]));
      if success {
        vbds := vbds[vbd := vbds[vbd].(vdi := None)];
      }
    }

    method Insert(vbd: string, vdi: string)
      requires vbd in vbds
      modifies this`ok, this`fates, this`vbds
      ensures vbds == old(vbds)[vbd := if ok then old(vbds[vbd]).(vdi := Some(vdi)) else old(vbds[vbd])]
      ensures ok <==> old(Link(ok, None, fates).Succeeds(vbds[vbd].vdi.None? && vdi in vdis && Changeable(vbds[vbd])))
      ensures old(fates) == [] ==> fates == []
    {
      var success := Call(vbds[vbd].vdi.None? && vdi in vdis && Changeable(vbds[vbd]));
      if success {
        vbds := vbds[vbd := vbds[vbd].(vdi := Some(vdi))];
      }
    }

    /** No image has an empty UUID, and a device only holds images that exist. */
    predicate Valid()
      reads this
    {
      "" !in vdis && forall x :: x in vbds && vbds[x].vdi.Some? ==> vbds[x].vdi.value in vdis
    }

    /** Emptying and refilling the device when what it holds is not what was asked for. */
    method Swap(vbd: string, isEmpty: bool, current: Option<string>, vdiUuid: string)
      requires Valid() && vbd in vbds && current == vbds[vbd].vdi && isEmpty == current.None?
      modifies this`ok, this`fates, this`vbds
      ensures Valid()
      ensures OnlyDeviceMoved(old(vbds), vbds, vbd)
      ensures vbds[vbd].vdi in {old(vbds)[vbd].vdi, None, Some(vdiUuid)}
      ensures ok ==> vbds[vbd].vdi == if vdiUuid == "" then None else Some(vdiUuid)
      ensures !old(ok) ==> !ok && vbds == old(vbds)
      ensures ok && vbds[vbd].vdi != old(vbds)[vbd].vdi ==> Changeable(old(vbds)[vbd])
      ensures old(ok) && old(fates) == [] && (vdiUuid == "" || vdiUuid in vdis) && (Changeable(vbds[vbd]) || current == if vdiUuid == "" then None else Some(vdiUuid)) ==>
                ok && fates == []
    {
      if isEmpty || current.value != vdiUuid {
        if !isEmpty {
          Eject(vbd);
        }
        if vdiUuid != "" {
          Insert(vbd, vdiUuid);
        }
      }
    }

    /** Renaming and resizing. The template is compared with the image the device held before,
        but the calls go to `vdi`, the image the template names. */
    method UpdateImage(before: Vdi, vdi: Option<string>, t: Template)
      requires vdi.Some? ==> vdi.value in vdis
      modifies this`ok, this`fates, this`vdis
      ensures vdis.Keys == old(vdis).Keys
      ensures forall x :: x in vdis && vdi != Some(x) ==> vdis[x] == old(vdis)[x]
      ensures ok && vdi.Some? ==> vdis[vdi.value] == Updated(before, old(vdis)[vdi.value], t)
      ensures !old(ok) ==> !ok && vdis == old(vdis)
      ensures ok && vdi.None? ==> !Differs(before, t)
      ensures old(ok) && old(fates) == [] && (vdi.Some? || !Differs(before, t)) ==> ok
    {
      var success;
      if t.name.Some? && before.name != t.name.value {
        success := Call(vdi.Some?);
        if success {
          vdis := vdis[vdi.value := vdis[vdi.value].(name := t.name.value)];
        }
      }
      if t.description.Some? && before.description != t.description.value {
        success := Call(vdi.Some?);
        if success {
          vdis := vdis[vdi.value := vdis[vdi.value].(description := t.description.value)];
        }
      }
      if t.size > 0 && before.size != t.size {
        success := Call(vdi.Some?);
        if success {
          vdis := vdis[vdi.value := vdis[vdi.value].(size := t.size)];
        }
      }
    }

    /** Reading what the device holds, and swapping it when the template says so. Returns the
        record of the image it held, when that could be read. */
    method ReadAndSwap(t: Template) returns (before: Option<Vdi>)
      requires Valid() && t.vbdUuid in vbds
      modifies this`ok, this`fates, this`vbds
      ensures Valid()
      ensures OnlyDeviceMoved(old(vbds), vbds, t.vbdUuid)
      ensures vbds[t.vbdUuid].vdi in {old(vbds)[t.vbdUuid].vdi, None, t.vdiUuid}
      ensures ok ==> vbds[t.vbdUuid].vdi == Requested(t, old(vbds)[t.vbdUuid].vdi)
      ensures !old(ok) ==> !ok && vbds == old(vbds)
      ensures before.Some? ==> old(ok) && old(vbds)[t.vbdUuid].vdi.Some? &&
                               before.value == vdis[old(vbds)[t.vbdUuid].vdi.value]
      ensures ok ==> before.Some? == old(vbds)[t.vbdUuid].vdi.Some?
      ensures ok && vbds[t.vbdUuid].vdi != old(vbds)[t.vbdUuid].vdi ==> Changeable(old(vbds)[t.vbdUuid])
      ensures old(ok) && old(fates) == [] && NamesAnImage(t, vdis) && Reachable(old(vbds)[t.vbdUuid], t) ==>
                ok && fates == []
    {
      before := None;
      var isEmpty := false;
      var current: Option<string> := None;
      var success := Call(true);
      if success {
        isEmpty := vbds[t.vbdUuid].vdi.None?;
      }
      var known := isEmpty;
      if !isEmpty {
        known := Call(true);
        if known {
          current := vbds[t.vbdUuid].vdi;
        }
      }
      if known {
        if !isEmpty {
          success := Call(true);
          if success {
            before := Some(vdis[current.value]);
          }
        }
        if isEmpty || before.Some? {
          if t.vdiUuid.Some? {
            Swap(t.vbdUuid, isEmpty, current, t.vdiUuid.value);
          }
        }
      }
    }

    /** The look-up of the image the template names; not finding the empty name is no error. */
    method FindImage(t: Template) returns (vdi: Option<string>)
      requires Valid() && ok
      modifies this`ok, this`fates
      ensures vdi == None || (vdi == t.vdiUuid && vdi.value in vdis)
      ensures ok ==> NamesAnImage(t, vdis) && vdi == Requested(t, None)
      ensures old(fates) == [] ==> fates == [] && (ok <==> NamesAnImage(t, vdis))
    {
      vdi := None;
      if t.vdiUuid.Some? {
        var success := Call(t.vdiUuid.value in vdis);
        if success {
          vdi := t.vdiUuid;
        } else if t.vdiUuid.value == "" {
          ok := true;
        }
      }
    }

    /** disk_rasd_modify. Success means the device holds what was asked for and the named image
        was updated; failure leaves the device with its old image, none, or the requested one,
        and untouched if the requested image does not exist. */
    method Modify(t: Template) returns (rc: bool)
      requires Valid()
      modifies this
      ensures Valid()
      ensures rc == ok
      ensures rc ==> t.vbdUuid in old(vbds) && NamesAnImage(t, old(vdis))
      ensures t.vbdUuid !in old(vbds) ==> vbds == old(vbds)
      ensures t.vbdUuid in old(vbds) ==>
                OnlyThisDevice(old(vbds), vbds, t) && (rc ==> vbds[t.vbdUuid] == Served(old(vbds)[t.vbdUuid], t))
      ensures !NamesAnImage(t, old(vdis)) ==> vbds == old(vbds) && vdis == old(vdis)
      ensures rc ==> HoldsAsAsked(old(vbds)[t.vbdUuid], vbds[t.vbdUuid], t)
      ensures rc && t.vdiUuid.Some? && t.vdiUuid.value != "" ==>
                t.vdiUuid.value in old(vdis) &&
                ImageAsAsked(old(vbds)[t.vbdUuid], old(vdis), vdis[t.vdiUuid.value], t)
      ensures t.vdiUuid.Some? && t.vdiUuid.value != "" && t.vdiUuid.value !in old(vdis) ==>
                !rc && vbds == old(vbds) && vdis == old(vdis)
      ensures old(ok) && old(fates) == [] && t.vbdUuid in old(vbds) ==>
                (rc <==> CanSucceed(old(vbds)[t.vbdUuid], old(vdis), t, removableOnly))
      ensures t.vbdUuid in old(vbds) && vbds[t.vbdUuid].userdevice != old(vbds)[t.vbdUuid].userdevice ==>
                vbds[t.vbdUuid] == Served(old(vbds)[t.vbdUuid], t)
      ensures vdis.Keys == old(vdis).Keys
      ensures vdis != old(vdis) ==> t.vbdUuid in old(vbds) && vbds[t.vbdUuid] == Served(old(vbds)[t.vbdUuid], t)
      ensures forall x :: x in vdis && t.vdiUuid != Some(x) ==> vdis[x] == old(vdis)[x]
      ensures rc && Named(t, vdis) ==>
                vdis[t.vdiUuid.value] == ImageAfter(old(vbds)[t.vbdUuid], old(vdis), t)
      ensures rc && Named(t, vdis) ==>
                (!Differs(vdis[t.vdiUuid.value], t) <==> Follows(old(vbds)[t.vbdUuid], old(vdis), t))
      ensures rc && Named(t, vdis) && !Changeable(old(vbds)[t.vbdUuid]) ==> !Differs(vdis[t.vdiUuid.value], t)
      ensures rc ==> Reachable(old(vbds)[t.vbdUuid], t)
      ensures old(ok) && old(fates) == [] && t.vbdUuid in old(vbds) ==>
                (rc <==> Reachable(old(vbds)[t.vbdUuid], t) && Feasible(old(vbds)[t.vbdUuid], old(vdis), t))
    {
      hide Differs, ImageAfter, Follows, Feasible, Served, HoldsAsAsked, ImageAsAsked, CanSucceed;
      var success := Call(t.vbdUuid in vbds);
      if !success {
        return false;
      }
      rc := ModifyFound(t);
      if rc {
        ServedMeans(old(vbds)[t.vbdUuid], t);
        if Named(t, vdis) {
          ImageAfterMeans(old(vbds)[t.vbdUuid], old(vdis), t);
        }
      }
      CanSucceedIff(old(vbds)[t.vbdUuid], old(vdis), t, removableOnly);
      NamedIffNotEmpty(old(vdis), t);
      if Named(t, vdis) {
        ImageFollowsTemplateIff(old(vbds)[t.vbdUuid], old(vdis), t);
        if rc && !Changeable(old(vbds)[t.vbdUuid]) {
          FixedDeviceFollowsTemplate(old(vbds)[t.vbdUuid], old(vdis), t);
        }
      }
    }

    /** The rest of it, once the device has been found. */
    method ModifyFound(t: Template) returns (rc: bool)
      requires Valid() && ok && t.vbdUuid in vbds
      modifies this
      ensures Valid()
      ensures rc == ok
      ensures rc ==> NamesAnImage(t, old(vdis))
      ensures OnlyThisDevice(old(vbds), vbds, t) && (rc ==> vbds[t.vbdUuid] == Served(old(vbds)[t.vbdUuid], t))
      ensures !NamesAnImage(t, old(vdis)) ==> vbds == old(vbds) && vdis == old(vdis)
      ensures t.vbdUuid in old(vbds) && vbds[t.vbdUuid].userdevice != old(vbds)[t.vbdUuid].userdevice ==>
                vbds[t.vbdUuid] == Served(old(vbds)[t.vbdUuid], t)
      ensures vdis.Keys == old(vdis).Keys
      ensures vdis != old(vdis) ==> t.vbdUuid in old(vbds) && vbds[t.vbdUuid] == Served(old(vbds)[t.vbdUuid], t)
      ensures forall x :: x in vdis && t.vdiUuid != Some(x) ==> vdis[x] == old(vdis)[x]
      ensures rc && Named(t, vdis) ==>
                vdis[t.vdiUuid.value] == ImageAfter(old(vbds)[t.vbdUuid], old(vdis), t)
      ensures rc ==> Reachable(old(vbds)[t.vbdUuid], t)
      ensures old(fates) == [] ==>
                (rc <==> Reachable(old(vbds)[t.vbdUuid], t) && Feasible(old(vbds)[t.vbdUuid], old(vdis), t))
    {
      hide Differs, Updated;
      var vdi := FindImage(t);
      var currentRecord: Option<Vbd> := None;
      var success := Call(true);
      if success {
        currentRecord := Some(vbds[t.vbdUuid]);
      }
      var before := ReadAndSwap(t);
      if currentRecord.Some? {
        SetUserdevice(t, currentRecord.value.userdevice);
      }
      if before.Some? && !currentRecord.value.isCd {
        UpdateImage(before.value, vdi, t);
      }
      return ok;
    }

    method SetUserdevice(t: Template, current: string)
      requires Valid() && t.vbdUuid in vbds && vbds[t.vbdUuid].userdevice == current
      modifies this`ok, this`fates, this`vbds
      ensures Valid()
      ensures vbds.Keys == old(vbds).Keys
      ensures forall x :: x in vbds && x != t.vbdUuid ==> vbds[x] == old(vbds)[x]
      ensures vbds[t.vbdUuid] == old(vbds)[t.vbdUuid].(userdevice :=
                if ok && t.userdevice.Some? then t.userdevice.value else current)
      ensures !old(ok) ==> !ok && vbds == old(vbds)
      ensures old(ok) && old(fates) == [] ==> ok && fates == []
    {
      if t.userdevice.Some? && current != t.userdevice.value {
        var success := Call(true);
        if success {
          vbds := vbds[t.vbdUuid := vbds[t.vbdUuid].(userdevice := t.userdevice.value)];
        }
      }
    }
  }

  /** The image a device holds once a request has been carried out. */
  function Requested(t: Template, held: Option<string>): Option<string> {
    match t.vdiUuid
    case None => held
    case Some(u) => if u == "" then None else Some(u)
  }

  /** The template names no image, the empty one, or one that exists. */
  predicate NamesAnImage(t: Template, vdis: map<string, Vdi>) {
    Requested(t, None).Some? ==> Requested(t, None).value in vdis
  }

  predicate Named(t: Template, vdis: map<string, Vdi>) {
    t.vdiUuid.Some? && t.vdiUuid.value in vdis
  }

  /** The template asks for a name, description or size the image does not have. */
  predicate Differs(image: Vdi, t: Template) {
    || (t.name.Some? && image.name != t.name.value)
    || (t.description.Some? && image.description != t.description.value)
    || (t.size > 0 && image.size != t.size)
  }

  function Updated(before: Vdi, target: Vdi, t: Template): Vdi {
    Vdi(if t.name.Some? && before.name != t.name.value then t.name.value else target.name,
        if t.description.Some? && before.description != t.description.value then t.description.value
        else target.description,
        if t.size > 0 && before.size != t.size then t.size else target.size)
  }

  /** The device after a successful change. */
  function Served(was: Vbd, t: Template): Vbd {
    Vbd(Requested(t, was.vdi), if t.userdevice.Some? then t.userdevice.value else was.userdevice, was.isCd)
  }

  /** The image is updated by comparison with the one held before, and not at all on a CD drive
      or an empty device. */
  predicate Updates(was: Vbd, vdis: map<string, Vdi>) {
    was.vdi.Some? && was.vdi.value in vdis && !was.isCd
  }

  /** The named image after a successful change. */
  function ImageAfter(was: Vbd, vdis: map<string, Vdi>, t: Template): Vdi
    requires Named(t, vdis)
  {
    var target := vdis[t.vdiUuid.value];
    if Updates(was, vdis) then Updated(vdis[was.vdi.value], target, t) else target
  }

  /** After success: without an image in the template the device holds what it held; an empty
      name empties it; any other name is that of the image it holds. Its number is changed if a
      number is asked for, and its kind never. */
  predicate HoldsAsAsked(was: Vbd, now: Vbd, t: Template) {
    && (t.vdiUuid.None? ==> now.vdi == was.vdi)
    && (t.vdiUuid.Some? && t.vdiUuid.value == "" ==> now.vdi == None)
    && (t.vdiUuid.Some? && t.vdiUuid.value != "" ==> now.vdi == t.vdiUuid)
    && (t.userdevice.Some? ==> now.userdevice == t.userdevice.value)
    && (t.userdevice.None? ==> now.userdevice == was.userdevice)
    && now.isCd == was.isCd
  }

  lemma ServedMeans(was: Vbd, t: Template)
    ensures HoldsAsAsked(was, Served(was, t), t)
  {
  }

  /** After success on a device other than a CD drive that held image `b`: each value asked for
      that `b` did not have is the named image's, and all its other values are as they were. On a
      CD drive or an empty device all of them are. */
  predicate ImageAsAsked(was: Vbd, vdis: map<string, Vdi>, now: Vdi, t: Template)
    requires t.vdiUuid.Some? && t.vdiUuid.value in vdis
  {
    var target := vdis[t.vdiUuid.value];
    && (was.isCd || was.vdi.None? ==> now == target)
    && (!was.isCd && was.vdi.Some? && was.vdi.value in vdis ==>
          var b := vdis[was.vdi.value];
          && (t.name.Some? && t.name.value != b.name ==> now.name == t.name.value)
          && (t.name.None? || t.name.value == b.name ==> now.name == target.name)
          && (t.description.Some? && t.description.value != b.description ==> now.description == t.description.value)
          && (t.description.None? || t.description.value == b.description ==> now.description == target.description)
          && (t.size > 0 && t.size != b.size ==> now.size == t.size)
          && (t.size <= 0 || t.size == b.size ==> now.size == target.size))
  }

  lemma ImageAfterMeans(was: Vbd, vdis: map<string, Vdi>, t: Template)
    requires Named(t, vdis)
    ensures ImageAsAsked(was, vdis, ImageAfter(was, vdis, t), t)
  {
  }

  lemma NamedIffNotEmpty(vdis: map<string, Vdi>, t: Template)
    requires "" !in vdis
    ensures Named(t, vdis) <==> t.vdiUuid.Some? && t.vdiUuid.value != "" && NamesAnImage(t, vdis)
  {
  }

  /** What else must hold for a change to succeed when no call fails of itself: the named image
      exists, and without one there is nothing to update. */
  predicate Feasible(was: Vbd, vdis: map<string, Vdi>, t: Template) {
    && NamesAnImage(t, vdis)
    && (Requested(t, None).None? && Updates(was, vdis) ==> !Differs(vdis[was.vdi.value], t))
  }

  /** When a change succeeds if no call fails of itself. A named image must exist, and be there
      already if the server will not swap it. Without one there must be nothing to update, since
      the calls for it would go to no image; and an image to be taken out must be removable. */
  predicate CanSucceed(was: Vbd, vdis: map<string, Vdi>, t: Template, removableOnly: bool) {
    match t.vdiUuid
    case None => NothingAsked(was, vdis, t)
    case Some(u) =>
      && (removableOnly && !was.isCd ==> was.vdi == if u == "" then None else t.vdiUuid)
      && if u == "" then NothingAsked(was, vdis, t) else u in vdis
  }

  /** There is no image to update, or every value asked for is the one it has. */
  predicate NothingAsked(was: Vbd, vdis: map<string, Vdi>, t: Template) {
    was.isCd || was.vdi.None? || was.vdi.value !in vdis ||
    (var b := vdis[was.vdi.value];
     && (t.name.Some? ==> t.name.value == b.name)
     && (t.description.Some? ==> t.description.value == b.description)
     && (t.size > 0 ==> t.size == b.size))
  }

  lemma CanSucceedIff(was: Vbd, vdis: map<string, Vdi>, t: Template, removableOnly: bool)
    requires "" !in vdis
    ensures CanSucceed(was, vdis, t, removableOnly) <==>
              && Feasible(was, vdis, t)
              && ((removableOnly ==> was.isCd) || Requested(t, was.vdi) == was.vdi)
  {
  }

  /** All that changed between two sets of devices is the image in one of them. */
  predicate OnlyDeviceMoved(before: map<string, Vbd>, after: map<string, Vbd>, vbd: string) {
    && vbd in before
    && before.Keys == after.Keys
    && (forall x :: x in after && x != vbd ==> after[x] == before[x])
    && after[vbd].(vdi := before[vbd].vdi) == before[vbd]
  }

  /** All that can have changed, however far the change got. */
  predicate OnlyThisDevice(before: map<string, Vbd>, after: map<string, Vbd>, t: Template)
    requires t.vbdUuid in before
  {
    var was := before[t.vbdUuid];
    && before.Keys == after.Keys
    && (forall x :: x in after && x != t.vbdUuid ==> after[x] == before[x])
    && after[t.vbdUuid].vdi in {was.vdi, None, t.vdiUuid}
    && (after[t.vbdUuid].userdevice == was.userdevice || Some(after[t.vbdUuid].userdevice) == t.userdevice)
    && after[t.vbdUuid].isCd == was.isCd
  }

  /** Every field asked for was wrong on the image held before, or is right on the new one. */
  predicate Carries(before: Vdi, target: Vdi, t: Template) {
    && (t.name.Some? && before.name == t.name.value ==> target.name == t.name.value)
    && (t.description.Some? && before.description == t.description.value ==>
          target.description == t.description.value)
    && (t.size > 0 && before.size == t.size ==> target.size == t.size)
  }

  /** On a device whose image is updated: no field asked for was right on the image held before
      and is wrong on the one swapped in. On a CD drive or an empty device: the image needs no
      update. */
  predicate Follows(was: Vbd, vdis: map<string, Vdi>, t: Template)
    requires Named(t, vdis)
  {
    var target := vdis[t.vdiUuid.value];
    if Updates(was, vdis) then Carries(vdis[was.vdi.value], target, t) else !Differs(target, t)
  }

  /** Exactly when a successful change leaves the named image as the template describes it. */
  lemma ImageFollowsTemplateIff(was: Vbd, vdis: map<string, Vdi>, t: Template)
    requires Named(t, vdis)
    ensures !Differs(ImageAfter(was, vdis, t), t) <==> Follows(was, vdis, t)
  {
  }

  /** On a server that only changes the image of a CD drive, any other device that a change
      succeeds on keeps its image, and that image then follows the template. */
  lemma FixedDeviceFollowsTemplate(was: Vbd, vdis: map<string, Vdi>, t: Template)
    requires Named(t, vdis) && "" !in vdis && !was.isCd && Requested(t, was.vdi) == was.vdi
    ensures !Differs(ImageAfter(was, vdis, t), t)
  {
    ImageFollowsTemplateIff(was, vdis, t);
  }

  /** A change that succeeds and leaves the wrong name, on a server that changes the image of any
      device: the name asked for is that of the old image, so the new one is not given it. */
  method WrongNameKept(held: string, swapped: string, wanted: string, kept: string)
    returns (rc: bool, name: string)
    requires held != "" && swapped != "" && held != swapped && wanted != kept
    ensures rc && name == kept
  {
    var vdis := map[held := Vdi(wanted, kept, 1), swapped := Vdi(kept, kept, 1)];
    var vbds := map[held := Vbd(Some(held), kept, false)];
    var t := Template(held, None, Some(swapped), Some(wanted), None, 0);
    var server := new Server(false, [], vbds, vdis);
    rc := server.Modify(t);
    name := server.vdis[swapped].name;
  }

  /** And on a server that only changes the image of a CD drive: the drive takes the image, but
      the name asked for is ignored. */
  method NameIgnoredOnCd(held: string, swapped: string, wanted: string, kept: string)
    returns (rc: bool, name: string)
    requires held != "" && swapped != "" && held != swapped && wanted != kept
    ensures rc && name == kept
  {
    var vdis := map[held := Vdi(kept, kept, 1), swapped := Vdi(kept, kept, 1)];
    var vbds := map[held := Vbd(Some(held), kept, true)];
    var t := Template(held, None, Some(swapped), Some(wanted), None, 0);
    var server := new Server(true, [], vbds, vdis);
    rc := server.Modify(t);
    name := server.vdis[swapped].name;
  }
}

/**
 * The autostart reconcile of the settings helper: the per-user autostart
 * desktop file carries a boolean "Hidden" key in group "Desktop Entry";
 * at startup the helper flips it to the negation of "this launch was
 * resumed from a saved session", writing only when the stored value does
 * not already say so.
 *
 * The desktop file on disk is a value (RcBacking); the resource-config
 * object the helper opens on it is a class (RcFile) whose entries and
 * dirty flag are updated in place.
 */
module Autostart {

  datatype Option<T> = None | Some(value: T)

  /** Groups of a key/value resource file, each a map from key to boolean. */
  type Groups = map<string, map<string, bool>>

  const DesktopEntry: string := "Desktop Entry"
  const HiddenKey: string := "Hidden"
  /** The group a freshly opened resource file has selected. */
  const NoGroup: string := ""

  /** The autostart file as the platform holds it: whether its directory can
      be created (so that opening succeeds), whether a flush reaches the
      disk, and what it contains (an absent file is empty). */
  datatype RcBacking = RcBacking(creatable: bool, writable: bool, groups: Groups)

  /** The boolean entry `key` of group `group`, if present. */
  function Entry(gs: Groups, group: string, key: string): Option<bool>
  {
    if group in gs && key in gs[group] then Some(gs[group][key]) else None
  }

  /** `gs` with entry `key` of group `group` set to `value`, creating the
      group when it is missing. */
  function WithEntry(gs: Groups, group: string, key: string, value: bool): (r: Groups)
    ensures Entry(r, group, key) == Some(value)
    ensures forall g, k :: (g != group || k != key) ==> Entry(r, g, k) == Entry(gs, g, k)
    ensures r.Keys == gs.Keys + {group}
  {
    gs[group := (if group in gs then gs[group] else map[])[key := value]]
  }

  /** The stored "Hidden" flag of the autostart file. */
  function Hidden(b: RcBacking): Option<bool>
  {
    Entry(b.groups, DesktopEntry, HiddenKey)
  }

  /** The reconcile has something to write: "Hidden" does not already say
      `!enabled` (it is absent, or it equals `enabled`). */
  predicate NeedsWrite(b: RcBacking, enabled: bool)
  {
    Hidden(b) != Some(!enabled)
  }

  /** Reference definition of the file after a reconcile with `enabled`:
      "Hidden" becomes `!enabled` when the file opens, the key does not say
      so yet and the flush reaches the disk; otherwise the file is as it was. */
  function Reconciled(b: RcBacking, enabled: bool): RcBacking
  {
    if b.creatable && b.writable && NeedsWrite(b, enabled)
    then b.(groups := WithEntry(b.groups, DesktopEntry, HiddenKey, !enabled))
    else b
  }

  /** The reconcile reports success: the file opened and nothing is left
      unsaved (either the write reached the disk or there was none). */
  predicate ReconcileSucceeds(b: RcBacking, enabled: bool)
  {
    b.creatable && (b.writable || !NeedsWrite(b, enabled))
  }

  /** The mutating operations performed on an open resource file. */
  datatype RcOp = WriteEntry(group: string, key: string, value: bool) | FlushFile

  /** An open resource file: its entries in memory, the selected group, the
      dirty flag, and the file on disk it was read from and flushes to. */
  class RcFile {
    var groups: Groups
    var group: string
    var dirty: bool
    var backing: RcBacking
    ghost var log: seq<RcOp>

    /** A clean resource file holds exactly what is on disk. */
    ghost predicate Valid()
      reads this
    {
      backing.creatable && (!dirty ==> groups == backing.groups)
    }

    /** Reads the file from disk; nothing is selected and nothing is unsaved. */
    constructor Open(b: RcBacking)
      requires b.creatable
      ensures Valid()
      ensures groups == b.groups && backing == b && group == NoGroup && !dirty && log == []
    {
      groups, group, dirty, backing, log := b.groups, NoGroup, false, b, [];
    }

    method SetGroup(g: string)
      requires Valid()
      modifies this
      ensures Valid() && group == g
      ensures groups == old(groups) && dirty == old(dirty) && backing == old(backing) && log == old(log)
    {
      group := g;
    }

    /** The boolean entry `key` of the selected group, or `fallback` when absent. */
    method ReadBool(key: string, fallback: bool) returns (v: bool)
      ensures Entry(groups, group, key) == Some(v) || (Entry(groups, group, key) == None && v == fallback)
    {
      v := if group in groups && key in groups[group] then groups[group][key] else fallback;
    }

    /** Sets `key` of the selected group in memory; the file becomes dirty. */
    method WriteBool(key: string, value: bool)
      requires Valid()
      modifies this
      ensures Valid() && dirty
      ensures groups == WithEntry(old(groups), group, key, value)
      ensures group == old(group) && backing == old(backing)
      ensures log == old(log) + [WriteEntry(group, key, value)]
    {
      groups := WithEntry(groups, group, key, value);
      dirty := true;
      log := log + [WriteEntry(group, key, value)];
    }

    /** Writes unsaved entries to disk; the file is clean afterwards exactly
        when the disk accepted them. */
    method Flush()
      requires Valid()
      modifies this
      ensures Valid() && groups == old(groups) && group == old(group)
      ensures old(dirty) && backing.writable ==> !dirty && backing == old(backing).(groups := groups)
      ensures !(old(dirty) && backing.writable) ==> dirty == old(dirty) && backing == old(backing)
      ensures log == old(log) + [FlushFile]
    {
      if dirty && backing.writable {
        backing := backing.(groups := groups);
        dirty := false;
      }
      log := log + [FlushFile];
    }

    /** Whether unsaved changes remain; a clean file holds what is on disk. */
    method IsDirty() returns (d: bool)
      requires Valid()
      ensures d == dirty
      ensures !d ==> groups == backing.groups
    {
      d := dirty;
    }
  }

  /** Opens the per-user autostart file; null when its directory cannot be created. */
  method OpenAutostartFile(b: RcBacking) returns (rc: RcFile?)
    ensures rc == null <==> !b.creatable
    ensures rc != null ==> fresh(rc) && rc.Valid() && rc.groups == b.groups && rc.backing == b
    ensures rc != null ==> rc.group == NoGroup && !rc.dirty && rc.log == []
  {
    if b.creatable {
      rc := new RcFile.Open(b);
    } else {
      rc := null;
    }
  }

  /**
   * The autostart reconcile. Returns the reported success, the file as it
   * is left on disk, and (for the proof) the mutating operations performed.
   * "Hidden" is written, to `!enabled`, and flushed exactly when the file
   * opens and the key is absent or equals `enabled`.
   */
  method SetAutostartEnabled(b: RcBacking, enabled: bool) returns (ok: bool, after: RcBacking, ghost ops: seq<RcOp>)
    ensures ok <==> ReconcileSucceeds(b, enabled)
    ensures after == Reconciled(b, enabled)
    ensures !b.creatable ==> ops == []
    ensures b.creatable && NeedsWrite(b, enabled) ==> ops == [WriteEntry(DesktopEntry, HiddenKey, !enabled), FlushFile]
    ensures !NeedsWrite(b, enabled) ==> ops == []
  {
    ok := true;
    var rc := OpenAutostartFile(b);
    if rc == null {
      return false, b, [];
    }
    rc.SetGroup(DesktopEntry);
    var current := rc.ReadBool(HiddenKey, enabled);
    if current == enabled {
      rc.WriteBool(HiddenKey, !enabled);
      rc.Flush();
    }
    var unsaved := rc.IsDirty();
    if unsaved {
      ok := false;
    }
    after, ops := rc.backing, rc.log;
  }

  /** Whenever the reconcile reports success, the file on disk says
      "Hidden" == `!enabled`, whatever it held before, absent included. */
  lemma SuccessLeavesHiddenNegated(b: RcBacking, enabled: bool)
    requires ReconcileSucceeds(b, enabled)
    ensures Hidden(Reconciled(b, enabled)) == Some(!enabled)
  {
  }

  /** An absent "Hidden" key reads as `enabled`, so it is always written. */
  lemma AbsentKeyIsWritten(b: RcBacking, enabled: bool)
    requires Hidden(b) == None
    ensures NeedsWrite(b, enabled)
    ensures b.creatable && b.writable ==> Hidden(Reconciled(b, enabled)) == Some(!enabled)
  {
  }

  /** The reconcile touches only "Hidden" of "Desktop Entry". */
  lemma ReconcileTouchesOnlyHidden(b: RcBacking, enabled: bool, g: string, k: string)
    requires g != DesktopEntry || k != HiddenKey
    ensures Entry(Reconciled(b, enabled).groups, g, k) == Entry(b.groups, g, k)
    ensures Reconciled(b, enabled).creatable == b.creatable
    ensures Reconciled(b, enabled).writable == b.writable
  {
  }

  /** After a reconcile that succeeded, a second one with the same argument
      has nothing to write, changes nothing and succeeds again. */
  lemma SecondReconcileWritesNothing(b: RcBacking, enabled: bool)
    requires ReconcileSucceeds(b, enabled)
    ensures !NeedsWrite(Reconciled(b, enabled), enabled)
    ensures Reconciled(Reconciled(b, enabled), enabled) == Reconciled(b, enabled)
    ensures ReconcileSucceeds(Reconciled(b, enabled), enabled)
  {
    SuccessLeavesHiddenNegated(b, enabled);
  }

  /** The reconcile toggles relative to `enabled`, it does not store it:
      a stored value equal to `enabled` becomes its negation, and a stored
      value already equal to `!enabled` is left alone. */
  lemma ReconcileToggles(b: RcBacking, enabled: bool)
    requires b.creatable && b.writable
    ensures Hidden(b) == Some(enabled) ==> Hidden(Reconciled(b, enabled)) == Some(!enabled)
    ensures Hidden(b) == Some(!enabled) ==> Reconciled(b, enabled) == b
  {
  }
}

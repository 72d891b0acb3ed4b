/**
 * The template context of an email (a `TwigViewableData` object): its own dynamic fields, which
 * `addData` and `removeData` write, and at most one failover object, which `setData` installs.
 * Reading a field `$data->{$name}` returns the own field when one was ever assigned (even when it
 * was assigned null), otherwise the failover's field, otherwise null.
 */
module ViewData {
  import opened Wrappers
  import opened Php

  type Fields = map<string, Value>

  datatype Context = Context(fields: Fields, failover: Option<Fields>)

  /** A freshly created context: no own fields and no failover. */
  const Blank := Context(map[], None)

  /**
   * `$context->{$name}`: an own field shadows the failover even when it holds null, and a name
   * neither has reads null.
   */
  function Lookup(c: Context, name: string): (r: Value)
    ensures name in c.fields ==> r == c.fields[name]
    ensures name !in c.fields && c.failover.Some? && name in c.failover.value ==> r == c.failover.value[name]
    ensures name !in c.fields && (c.failover.None? || name !in c.failover.value) ==> r == Null
  {
    if name in c.fields then c.fields[name]
    else if c.failover.Some? && name in c.failover.value then c.failover.value[name]
    else Null
  }

  /** `$context->{$name} = $value`: only `name` reads differently afterwards. */
  function SetField(c: Context, name: string, value: Value): (r: Context)
    ensures Lookup(r, name) == value
    ensures forall n :: n != name ==> Lookup(r, n) == Lookup(c, n)
    ensures r.failover == c.failover
  {
    c.(fields := c.fields[name := value])
  }

  /** The own fields after assigning every entry of `entries` in order. */
  function AssignAll(fields: Fields, entries: seq<(string, Value)>): Fields
  {
    if entries == [] then fields
    else
      var last := entries[|entries| - 1];
      AssignAll(fields, entries[..|entries| - 1])[last.0 := last.1]
  }

  /** After assigning `entries`, a name assigned by them holds the value of its last occurrence. */
  lemma {:induction false} AssignAllLastWins(fields: Fields, entries: seq<(string, Value)>, i: nat)
    requires i < |entries|
    requires forall j :: i < j < |entries| ==> entries[j].0 != entries[i].0
    ensures entries[i].0 in AssignAll(fields, entries)
    ensures AssignAll(fields, entries)[entries[i].0] == entries[i].1
  {
    if i < |entries| - 1 {
      var prefix := entries[..|entries| - 1];
      assert forall j :: i < j < |prefix| ==> prefix[j] == entries[j];
      AssignAllLastWins(fields, prefix, i);
    }
  }

  /** After assigning `entries`, a name they do not mention is exactly as it was. */
  lemma {:induction false} AssignAllElsewhere(fields: Fields, entries: seq<(string, Value)>, name: string)
    requires forall j :: 0 <= j < |entries| ==> entries[j].0 != name
    ensures name in AssignAll(fields, entries) <==> name in fields
    ensures name in fields ==> AssignAll(fields, entries)[name] == fields[name]
  {
    if entries != [] {
      var prefix := entries[..|entries| - 1];
      assert forall j :: 0 <= j < |prefix| ==> prefix[j] == entries[j];
      AssignAllElsewhere(fields, prefix, name);
    }
  }

  /** No name occurs twice (the keys of a PHP array literal). */
  predicate DistinctNames(entries: seq<(string, Value)>) {
    forall i, j :: 0 <= i < j < |entries| ==> entries[i].0 != entries[j].0
  }

  /** Assign `name := value` only where `name` currently reads null. */
  function FillIfNull(c: Context, entry: (string, Value)): Context {
    if Lookup(c, entry.0).Null? then SetField(c, entry.0, entry.1) else c
  }

  /** The context after filling in each of `defaults` where it reads null, in order. */
  function FillDefaults(c: Context, defaults: seq<(string, Value)>): (r: Context)
    ensures r.failover == c.failover
  {
    if defaults == [] then c
    else FillIfNull(FillDefaults(c, defaults[..|defaults| - 1]), defaults[|defaults| - 1])
  }

  /** A name the defaults do not mention reads as before. */
  lemma {:induction false} FillDefaultsElsewhere(c: Context, defaults: seq<(string, Value)>, name: string)
    requires forall j :: 0 <= j < |defaults| ==> defaults[j].0 != name
    ensures Lookup(FillDefaults(c, defaults), name) == Lookup(c, name)
  {
    if defaults != [] {
      var prefix := defaults[..|defaults| - 1];
      assert forall j :: 0 <= j < |prefix| ==> prefix[j] == defaults[j];
      FillDefaultsElsewhere(c, prefix, name);
    }
  }

  /** A name the defaults mention reads its default exactly when it read null before. */
  lemma {:induction false} FillDefaultsAt(c: Context, defaults: seq<(string, Value)>, i: nat)
    requires DistinctNames(defaults)
    requires i < |defaults|
    ensures Lookup(FillDefaults(c, defaults), defaults[i].0)
         == if Lookup(c, defaults[i].0).Null? then defaults[i].1 else Lookup(c, defaults[i].0)
  {
    var prefix := defaults[..|defaults| - 1];
    assert forall j :: 0 <= j < |prefix| ==> prefix[j] == defaults[j];
    if i == |defaults| - 1 {
      FillDefaultsElsewhere(c, prefix, defaults[i].0);
    } else {
      FillDefaultsAt(c, prefix, i);
    }
  }
}

/**
 * The naming allocator: every bind call gets an instance name, either the
 * caller's name verbatim, or a prefix followed by the next value of a
 * counter that lives as long as the process and only ever grows.
 */
module Naming {
  import opened Opt
  import Decimal

  const AutoPrefix: string := "o"

  /** A name counts as given when it is present and not the empty string (JavaScript truthiness). */
  predicate Given(name: Option<string>) {
    name.Some? && name.value != ""
  }

  /** Whether allocating takes a number from the counter. */
  predicate Numbered(name: Option<string>, unique: bool) {
    !Given(name) || unique
  }

  /** What is put in front of the counter: the given name, or the automatic prefix. */
  function Prefix(name: Option<string>): string {
    if Given(name) then name.value else AutoPrefix
  }

  /** The name handed out at counter value `counter`, and the counter afterwards. */
  function Allocate(counter: nat, name: Option<string>, unique: bool): (r: (string, nat))
    ensures r.1 == if Numbered(name, unique) then counter + 1 else counter
    ensures !Numbered(name, unique) ==> r.0 == name.value
    ensures |Prefix(name)| < |r.0| || !Numbered(name, unique)
    ensures Numbered(name, unique) ==> r.0[..|Prefix(name)|] == Prefix(name)
  {
    if Given(name) then
      if unique then (name.value + Decimal.Text(counter + 1), counter + 1) else (name.value, counter)
    else
      (AutoPrefix + Decimal.Text(counter + 1), counter + 1)
  }

  /**
   * A numbered name carries the counter it was allocated with: the digits
   * after the prefix read back as the new counter value.
   */
  lemma NumberRecoverable(counter: nat, name: Option<string>, unique: bool)
    requires Numbered(name, unique)
    ensures var (n, c) := Allocate(counter, name, unique);
            && c == counter + 1
            && |Prefix(name)| < |n| && n[..|Prefix(name)|] == Prefix(name)
            && Decimal.AllDigits(n[|Prefix(name)|..])
            && Decimal.Value(n[|Prefix(name)|..]) == c
  {
    var (n, c) := Allocate(counter, name, unique);
    assert n[|Prefix(name)|..] == Decimal.Text(c);
    Decimal.ValueOfText(c);
  }

  /**
   * Two numbered names with the same prefix, allocated at different
   * counter values, differ.
   */
  lemma NumberedNamesDiffer(c1: nat, c2: nat, name: Option<string>, unique1: bool, unique2: bool)
    requires c1 != c2
    requires Numbered(name, unique1) && Numbered(name, unique2)
    ensures Allocate(c1, name, unique1).0 != Allocate(c2, name, unique2).0
  {
    var p := Prefix(name);
    var n1 := Allocate(c1, name, unique1).0;
    var n2 := Allocate(c2, name, unique2).0;
    if n1 == n2 {
      assert n1[|p|..] == Decimal.Text(c1 + 1);
      assert n2[|p|..] == Decimal.Text(c2 + 1);
      Decimal.TextInjective(c1 + 1, c2 + 1);
    }
  }

  /**
   * Two successive binds with the same name and `unique` set get different
   * names whose suffixes are consecutive counter values.
   */
  lemma SuccessiveUniqueNames(counter: nat, name: string)
    requires name != ""
    ensures var first := Allocate(counter, Some(name), true);
            var second := Allocate(first.1, Some(name), true);
            && first.0 == name + Decimal.Text(counter + 1)
            && second.0 == name + Decimal.Text(counter + 2)
            && second.1 == first.1 + 1
            && first.0 != second.0
  {
    NumberedNamesDiffer(counter, counter + 1, Some(name), true, true);
  }

  /**
   * Names are only as unique as their prefixes: a unique name `o1` at
   * counter 1 and an automatic name at counter 11 are both `o12`.
   */
  lemma PrefixesCanCollide()
    ensures Allocate(1, Some("o1"), true).0 == Allocate(11, None, false).0 == "o12"
  {
    assert Decimal.Text(2) == "2";
    assert Decimal.Text(12) == Decimal.Text(1) + "2";
  }

  /** The process-wide counter behind the allocator. */
  class Namer {
    var counter: nat

    constructor ()
      ensures counter == 0
    {
      counter := 0;
    }

    /**
     * A given name without `unique` comes back verbatim and the counter is
     * untouched; otherwise the counter grows by exactly one and the name is
     * the prefix followed by the new counter value.
     */
    method GetName(name: Option<string>, unique: bool) returns (r: string)
      modifies this
      ensures (r, counter) == Allocate(old(counter), name, unique)
      ensures !Numbered(name, unique) ==> r == name.value && counter == old(counter)
      ensures Numbered(name, unique) ==> counter == old(counter) + 1 && r == Prefix(name) + Decimal.Text(counter)
    {
      if Given(name) {
        if unique {
          counter := counter + 1;
          r := name.value + Decimal.Text(counter);
        } else {
          r := name.value;
        }
      } else {
        counter := counter + 1;
        r := AutoPrefix + Decimal.Text(counter);
      }
    }
  }
}

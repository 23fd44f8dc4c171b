/**
 * The event-handler registry both servers inherit (server/components/MessageHandlerServer.js):
 * a map from event name to the list of handlers registered for it. Handlers are JavaScript
 * closures; here each is an opaque identifier.
 */
module Handlers {
  type HandlerId = nat

  type Registry = map<string, seq<HandlerId>>

  /** The first argument of `on`: one event name or an array of them. */
  datatype EventNames = One(name: string) | Many(names: seq<string>)

  /** The handlers listed for `name` (none when it was never registered). */
  function ListFor(r: Registry, name: string): seq<HandlerId>
  {
    if name in r then r[name] else []
  }

  /** Registering `h` for one name: its list, created when missing, gets `h` at the end. */
  function Appended(r: Registry, name: string, h: HandlerId): (r': Registry)
    ensures r'.Keys == r.Keys + {name}
    ensures r'[name] == ListFor(r, name) + [h]
    ensures forall n :: n in r && n != name ==> r'[n] == r[n]
  {
    r[name := ListFor(r, name) + [h]]
  }

  /** Registering `h` for each name of an array, first to last. */
  function AppendedAll(r: Registry, names: seq<string>, h: HandlerId): Registry
  {
    if names == [] then r
    else Appended(AppendedAll(r, names[..|names| - 1], h), names[|names| - 1], h)
  }

  /**
   * After registering `h` for an array of names, each name's list is its old list followed by
   * one `h` per occurrence of the name in the array: nothing is removed, reordered or
   * de-duplicated, and names not in the array keep their lists.
   */
  lemma {:induction false} AppendedAllList(r: Registry, names: seq<string>, h: HandlerId, n: string)
    ensures ListFor(AppendedAll(r, names, h), n) == ListFor(r, n) + seq(multiset(names)[n], _ => h)
  {
    if names == [] {
      assert ListFor(r, n) + [] == ListFor(r, n);
    } else {
      var init, last := names[..|names| - 1], names[|names| - 1];
      assert names == init + [last];
      AppendedAllList(r, init, h, n);
      var before := AppendedAll(r, init, h);
      if n == last {
        assert multiset(names)[n] == multiset(init)[n] + 1;
        assert seq(multiset(names)[n], _ => h) == seq(multiset(init)[n], _ => h) + [h];
      } else {
        assert multiset(names)[n] == multiset(init)[n];
      }
    }
  }

  /** A name that is not in the array keeps exactly its old registration. */
  lemma AppendedAllUntouched(r: Registry, names: seq<string>, h: HandlerId, n: string)
    requires n !in names
    ensures n in AppendedAll(r, names, h) <==> n in r
    ensures ListFor(AppendedAll(r, names, h), n) == ListFor(r, n)
  {
    AppendedAllList(r, names, h, n);
    assert multiset(names)[n] == 0;
    AppendedAllKeys(r, names, h);
  }

  lemma {:induction false} AppendedAllKeys(r: Registry, names: seq<string>, h: HandlerId)
    ensures AppendedAll(r, names, h).Keys == r.Keys + set n | n in names
  {
    if names != [] {
      var init := names[..|names| - 1];
      assert names == init + [names[|names| - 1]];
      AppendedAllKeys(r, init, h);
    }
  }

  /** Every existing list is a prefix of its list after a registration. */
  lemma AppendedAllKeepsEarlier(r: Registry, names: seq<string>, h: HandlerId, n: string)
    ensures ListFor(r, n) <= ListFor(AppendedAll(r, names, h), n)
  {
    AppendedAllList(r, names, h, n);
  }

  /** Registering the same handler twice for a name lists it twice. */
  lemma NoDeduplication(r: Registry, name: string, h: HandlerId)
    ensures ListFor(Appended(Appended(r, name, h), name, h), name) == ListFor(r, name) + [h, h]
  {
  }

  class MessageHandlerServer {
    var handlers: Registry

    constructor()
      ensures handlers == map[]
    {
      handlers := map[];
    }

    /** `on(eventName, handler)`. */
    method On(eventName: EventNames, h: HandlerId)
      modifies this
      ensures eventName.One? ==> handlers == Appended(old(handlers), eventName.name, h)
      ensures eventName.Many? ==> handlers == AppendedAll(old(handlers), eventName.names, h)
    {
      match eventName
      case One(name) =>
        SetHandler(name, h);
      case Many(names) =>
        for i := 0 to |names|
          invariant handlers == AppendedAll(old(handlers), names[..i], h)
        {
          assert names[..i + 1][..i] == names[..i];
          SetHandler(names[i], h);
        }
        assert names[..|names|] == names;
    }

    /** `_setHandler`: push onto the list, creating it first when missing. */
    method SetHandler(name: string, h: HandlerId)
      modifies this
      ensures handlers == Appended(old(handlers), name, h)
    {
      var list := if name in handlers then handlers[name] else [];
      handlers := handlers[name := list + [h]];
    }
  }
}

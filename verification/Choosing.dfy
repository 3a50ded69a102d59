/** Reading what can be read of a list, in order: the loops that push a readable element and skip the rest. */
module Choosing {
  import opened Options

  function Chosen<A, B>(read: A -> Option<B>, s: seq<A>): seq<B> {
    if s == [] then []
    else
      var last := read(s[|s| - 1]);
      Chosen(read, s[..|s| - 1]) + (if last.Some? then [last.value] else [])
  }

  // Where in the list each chosen one is.
  function Places<A, B>(read: A -> Option<B>, s: seq<A>): seq<nat> {
    if s == [] then []
    else Places(read, s[..|s| - 1]) + (if read(s[|s| - 1]).Some? then [|s| - 1] else [])
  }

  lemma {:induction false} PlacesAscend<A, B>(read: A -> Option<B>, s: seq<A>)
    ensures var at := Places(read, s);
      && |at| <= |s|
      && (forall k :: 0 <= k < |at| ==> at[k] < |s|)
      && (forall j, k :: 0 <= j < k < |at| ==> at[j] < at[k])
  {
    if s != [] { PlacesAscend(read, s[..|s| - 1]); }
  }

  lemma {:induction false} PlacesAreReadable<A, B>(read: A -> Option<B>, s: seq<A>, i: nat)
    requires i < |s|
    ensures read(s[i]).Some? <==> i in Places(read, s)
  {
    var init := s[..|s| - 1];
    PlacesAscend(read, init);
    if i < |init| {
      PlacesAreReadable(read, init, i);
      assert s[i] == init[i];
    }
  }

  lemma {:induction false} PlacesRead<A, B>(read: A -> Option<B>, s: seq<A>)
    ensures var at, chosen := Places(read, s), Chosen(read, s);
      |at| == |chosen| && forall k :: 0 <= k < |at| ==> at[k] < |s| && read(s[at[k]]) == Some(chosen[k])
  {
    if s != [] {
      var init := s[..|s| - 1];
      PlacesRead(read, init);
      forall k | 0 <= k < |Places(read, init)| ensures s[Places(read, init)[k]] == init[Places(read, init)[k]] {}
    }
  }

  // Every element is either the one it reads as, in its place in the order, or unreadable.
  lemma EveryElementIsAccountedFor<A, B>(read: A -> Option<B>, s: seq<A>)
    ensures var at, chosen := Places(read, s), Chosen(read, s);
      && |at| == |chosen| <= |s|
      && (forall k :: 0 <= k < |at| ==> at[k] < |s| && read(s[at[k]]) == Some(chosen[k]))
      && (forall j, k :: 0 <= j < k < |at| ==> at[j] < at[k])
      && (forall i :: 0 <= i < |s| ==> (read(s[i]).Some? <==> i in at))
  {
    PlacesAscend(read, s);
    PlacesRead(read, s);
    forall i | 0 <= i < |s| ensures read(s[i]).Some? <==> i in Places(read, s) {
      PlacesAreReadable(read, s, i);
    }
  }

  // Chosen are exactly the readings of the elements.
  lemma ChosenExactly<A, B>(read: A -> Option<B>, s: seq<A>, b: B)
    ensures b in Chosen(read, s) <==> exists i :: 0 <= i < |s| && read(s[i]) == Some(b)
  {
    EveryElementIsAccountedFor(read, s);
    var at, chosen := Places(read, s), Chosen(read, s);
    if b in chosen {
      var k :| 0 <= k < |chosen| && chosen[k] == b;
      assert read(s[at[k]]) == Some(b);
    }
    if i :| 0 <= i < |s| && read(s[i]) == Some(b) {
      var k :| 0 <= k < |at| && at[k] == i;
      assert chosen[k] == b;
    }
  }
}

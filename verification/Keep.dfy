/** A conversation kept between requests: the ids fed to a cache, recorded beside it. */
module Keeping {
  import opened Attention
  import opened Model
  import opened Generation
  import opened Speculation

  /** Why a turn's reply ended, and the length of the prefix its prompt did not have to be fed. */
  datatype Served = Served(stop: Stop, reused: nat)

  /** Where a cache with no slack stands: what it has been fed is the whole of it. */
  function Kept0(net: Net, ids: seq<Id>): Position
    requires net.kernelSize > 0
  {
    Position(ids, Level(net.kernelSize - 1, 0, net.kernelSize - 1))
  }

  /** How much of `prompt` need not be fed where `ids` are recorded: all of those or none of them. */
  function MatchingOf(ids: seq<Id>, prompt: seq<Id>): nat {
    if |prompt| > |ids| && ids <= prompt then |ids| else 0
  }

  lemma Thirds(prompt: seq<Id>, i: nat, j: nat)
    requires i <= j <= |prompt|
    ensures prompt[..i] + prompt[i..j] == prompt[..j] && prompt[..j] + prompt[j..] == prompt
  {
  }

  /** A cache that holds nothing. */
  method Empty(net: Net) returns (cache: ModelCache)
    requires net.Valid()
    ensures fresh(cache) && fresh(cache.Repr) && cache.Holds(net, Kept0(net, []))
  {
    cache := new ModelCache(net, 0);
  }

  class Kept {
    const net: Net
    const bound: nat
    var ids: seq<Id>
    var cache: ModelCache

    ghost function Repr(): set<object>
      reads this
    {
      {this} + cache.Repr
    }

    /** The cache sits exactly at the end of the recorded ids. */
    ghost predicate Valid()
      reads Repr()
    {
      net.Valid() && this !in cache.Repr && |ids| <= bound && cache.Holds(net, Kept0(net, ids))
    }

    /** A server holding nothing yet. */
    constructor (net: Net, bound: nat)
      requires net.Valid()
      ensures Valid() && fresh(Repr())
      ensures this.net == net && this.bound == bound && ids == []
    {
      var empty := Empty(net);
      this.net, this.bound, ids, cache := net, bound, [], empty;
    }

    /** The length of `prompt`'s prefix that need not be fed: every recorded id or zero, and always short of
      * the prompt itself. */
    function Matching(prompt: seq<Id>): (held: nat)
      reads this
      ensures held > 0 ==> held == |ids| < |prompt| && prompt[..held] == ids
      ensures held == 0 ==> ids == [] || |prompt| <= |ids| || !(ids <= prompt)
    {
      MatchingOf(ids, prompt)
    }

    /** No recorded ids, and a cache that holds the empty sequence in place of the present one. */
    method Forget()
      requires net.Valid()
      modifies this
      ensures Valid() && ids == [] && fresh(cache.Repr)
    {
      ids := [];
      cache := Empty(net);
    }

    /** The cache to serve `prompt` against, and how many of it that already holds. */
    method Opened(prompt: seq<Id>) returns (matching: nat)
      requires Valid() && prompt != []
      modifies this
      ensures Valid() && fresh(Repr() - old(Repr()))
      ensures matching == old(Matching(prompt)) == |ids| < |prompt| && ids == prompt[..matching]
    {
      matching := Matching(prompt);
      if matching == 0 {
        Forget();
      }
    }

    /** `prompt`'s ids recorded, if the bound admits them, with a cache already standing where they end; past
      * the bound all is forgotten. */
    method Keep(prompt: seq<Id>)
      requires net.Valid() && this !in cache.Repr && cache.Holds(net, Kept0(net, prompt))
      modifies this
      ensures Valid() && fresh(Repr() - old(Repr()))
      ensures ids == if |prompt| <= bound then prompt else []
    {
      if |prompt| <= bound {
        ids := prompt;
      } else {
        ids := [];
        cache := Empty(net);
      }
    }

    /** A prompt fed from as far as it is held and its reply streamed, which is the reply an empty cache gives
      * the same prompt; all of the prompt but its last id is what is recorded, within the bound. */
    method Turn(prompt: seq<Id>, ending: Ending, declines: Declines) returns (tokens: seq<Id>, served: Served)
      requires Valid() && prompt != []
      modifies Repr()
      ensures Valid() && fresh(Repr() - old(Repr()))
      ensures Generated(net, prompt, ending, declines, tokens, served.stop)
      ensures served.reused == old(Matching(prompt))
      ensures ids == if |prompt| - 1 <= bound then prompt[..|prompt| - 1] else []
    {
      var held := |prompt| - 1;
      var reused := Opened(prompt);
      if reused < held {
        Prefill(net, cache, prompt[reused..held], Kept0(net, ids));
      }
      ghost var all := prompt[..held];
      Thirds(prompt, reused, held);
      assert ids + prompt[reused..held] == all;
      var stop;
      tokens, stop := Reply(all, prompt[held..], ending, declines);
      Keep(prompt[..held]);
      served := Served(stop, reused);
    }

    /** The reply streamed from where the cache stands, and the cache put back there. */
    method Reply(ghost all: seq<Id>, last: seq<Id>, ending: Ending, declines: Declines)
      returns (tokens: seq<Id>, stop: Stop)
      requires net.Valid() && this !in cache.Repr && cache.Holds(net, Kept0(net, all)) && last != []
      modifies cache.Repr
      ensures cache.Holds(net, Kept0(net, all))
      ensures Generated(net, all + last, ending, declines, tokens, stop)
    {
      ghost var here := Kept0(net, all);
      var mark := cache.Mark(net, here);
      ghost var now;
      tokens, stop, now := Stream(net, cache, last, ending, declines, here);
      ghost var later := now.ids[|all|..];
      assert now.ids == all + later;
      cache.Resume(mark, net, now, here, later);
    }
  }
}

/** The strip of online creators above the marketplace grid
    (components/Stories.tsx). */
module Stories {
  import opened Common
  import opened Text
  import opened Types

  /** The most creators the strip shows. */
  const MaxStories: nat := 15

  predicate IsOnline(c: Creator) {
    c.online
  }

  /** `creators.filter(c => c.online).slice(0, 15)` */
  function Strip(creators: seq<Creator>): (r: seq<Creator>)
    ensures |r| <= MaxStories
    ensures forall i :: 0 <= i < |r| ==> r[i].online && r[i] in creators
  {
    Take(Filter(IsOnline, creators), MaxStories)
  }

  /** The strip is the first fifteen online creators in roster order: a
      prefix of the online ones, cut short only at the cap. */
  lemma StripIsFirstOnline(creators: seq<Creator>)
    ensures Strip(creators) <= Filter(IsOnline, creators)
    ensures |Strip(creators)| < MaxStories ==> Strip(creators) == Filter(IsOnline, creators)
    ensures IsSubsequence(Filter(IsOnline, creators), creators)
  {
    FilterIsSubsequence(IsOnline, creators);
  }

  /** The component renders nothing exactly when no creator is online. */
  lemma StripEmptyIff(creators: seq<Creator>)
    ensures Strip(creators) == [] <==> forall i :: 0 <= i < |creators| ==> !creators[i].online
  {
    FilterMembership(IsOnline, creators);
    if Strip(creators) == [] {
      assert Filter(IsOnline, creators) == [];
      forall i | 0 <= i < |creators|
        ensures !creators[i].online
      {
        assert creators[i] in creators;
      }
    } else {
      assert Strip(creators)[0] in Filter(IsOnline, creators);
    }
  }

  /** `creator.name.split(' ')[0]`: the name up to its first space. */
  function Label(c: Creator): (l: string)
    ensures l <= c.name && ' ' !in l
    ensures |l| < |c.name| ==> c.name[|l|] == ' '
  {
    FirstWord(c.name)
  }
}

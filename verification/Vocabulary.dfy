/** app/pipeline/profiling.py: the counted vocabulary a workspace keeps of its documents' profiles. */
module Vocabulary {
  import opened Text

  /** Most terms one profile lists. */
  const LIMIT := 12

  /** `DocumentProfile` without its summary, which the vocabulary ignores. */
  datatype Profile = Profile(documentType: string, topics: seq<string>, entities: seq<string>)

  type Counts = map<string, nat>

  datatype WorkspaceProfile = WorkspaceProfile(topics: Counts, entities: Counts, documentTypes: Counts, documentCount: nat)

  const EMPTY := WorkspaceProfile(map[], map[], map[], 0)

  // ---------------------------------------------------------------- cleaning a list of terms

  /** A term whose lower-cased form is in `terms`. */
  predicate Listed(terms: seq<string>, text: string, lower: string -> string) {
    exists i :: 0 <= i < |terms| && lower(terms[i]) == lower(text)
  }

  /** `_string_list`: stripped, non-blank, each once whatever its case, at most LIMIT. */
  function Cleaned(items: seq<string>, lower: string -> string): seq<string> {
    if items == [] then []
    else
      var before, text := Cleaned(items[..|items| - 1], lower), Strip(items[|items| - 1]);
      if |before| < LIMIT && text != "" && !Listed(before, text, lower) then before + [text] else before
  }

  function Keys(terms: seq<string>, lower: string -> string): set<string> {
    set i | 0 <= i < |terms| :: lower(terms[i])
  }

  lemma KeysGrow(terms: seq<string>, text: string, lower: string -> string)
    ensures Keys(terms + [text], lower) == Keys(terms, lower) + {lower(text)}
    ensures Listed(terms, text, lower) <==> lower(text) in Keys(terms, lower)
  {
    var more := terms + [text];
    assert more[|terms|] == text;
    forall key | key in Keys(terms, lower) ensures key in Keys(more, lower) {
      var i :| 0 <= i < |terms| && lower(terms[i]) == key;
      assert more[i] == terms[i];
    }
    forall key | key in Keys(more, lower) ensures key in Keys(terms, lower) + {lower(text)} {
      var i :| 0 <= i < |more| && lower(more[i]) == key;
      assert i < |terms| ==> more[i] == terms[i];
    }
  }

  /** The loop stops as soon as the list is full. */
  method StringList(items: seq<string>, lower: string -> string) returns (cleaned: seq<string>)
    ensures cleaned == Cleaned(items, lower)
  {
    cleaned := [];
    var seen: set<string> := {};
    assert items[..|items|] == items;
    for i := 0 to |items|
      invariant cleaned == Cleaned(items[..i], lower) && |cleaned| < LIMIT
      invariant seen == Keys(cleaned, lower)
    {
      assert items[..i + 1][..i] == items[..i];
      var text := Strip(items[i]);
      var key := lower(text);
      KeysGrow(cleaned, text, lower);
      if text != "" && key !in seen {
        seen := seen + {key};
        cleaned := cleaned + [text];
      }
      if |cleaned| >= LIMIT {
        FullStaysFull(items, i + 1, lower);
        return;
      }
    }
  }

  lemma FullSkips(items: seq<string>, init: seq<string>, lower: string -> string)
    requires items != [] && init == items[..|items| - 1] && |Cleaned(init, lower)| >= LIMIT
    ensures Cleaned(items, lower) == Cleaned(init, lower)
  {
    hide Strip, Listed;
  }

  lemma {:induction false} FullStaysFull(items: seq<string>, i: nat, lower: string -> string)
    requires i <= |items| && |Cleaned(items[..i], lower)| >= LIMIT
    ensures Cleaned(items, lower) == Cleaned(items[..i], lower)
  {
    hide *;
    if i == |items| {
      assert items[..i] == items;
    } else {
      var init := items[..|items| - 1];
      assert init[..i] == items[..i];
      FullStaysFull(init, i, lower);
      FullSkips(items, init, lower);
    }
  }

  /** A list as `_string_list` leaves it. */
  ghost predicate Tidy(terms: seq<string>, lower: string -> string) {
    && |terms| <= 12
    && (forall i :: 0 <= i < |terms| ==> terms[i] != "" && Strip(terms[i]) == terms[i])
    && (forall i, j :: 0 <= i < j < |terms| ==> lower(terms[i]) != lower(terms[j]))
  }

  lemma StripTwice(s: string)
    ensures Strip(Strip(s)) == Strip(s)
  {
    NothingToStrip();
    var l, r := StripParts(s);
    if Strip(s) != "" {
      hide IsSpace, Strip, LStrip, RStrip;
      StripOf(Strip(s));
    }
  }

  lemma {:induction false} CleanedIsTidy(items: seq<string>, lower: string -> string)
    ensures Tidy(Cleaned(items, lower), lower)
  {
    if items == [] {
      assert Tidy([], lower);
    } else {
      var init, last := items[..|items| - 1], items[|items| - 1];
      CleanedStep(items, init, last, lower);
      hide *;
      CleanedIsTidy(init, lower);
      StripTwice(last);
      if |Cleaned(init, lower)| < LIMIT && Strip(last) != "" && !Listed(Cleaned(init, lower), Strip(last), lower) {
        TidyGrows(Cleaned(init, lower), Strip(last), lower);
      }
    }
  }

  lemma CleanedStep(items: seq<string>, init: seq<string>, last: string, lower: string -> string)
    requires items != [] && init == items[..|items| - 1] && last == items[|items| - 1]
    ensures var before, text := Cleaned(init, lower), Strip(last);
      Cleaned(items, lower) == if |before| < LIMIT && text != "" && !Listed(before, text, lower) then before + [text] else before
  {
    hide Strip, Listed;
  }

  lemma TidyGrows(terms: seq<string>, text: string, lower: string -> string)
    requires Tidy(terms, lower) && |terms| < LIMIT && text != "" && Strip(text) == text && !Listed(terms, text, lower)
    ensures Tidy(terms + [text], lower)
  {
    hide Strip;
  }

  /** `cleaned` takes its terms from `items` at the places `at`: every item is blank, or repeats a term taken no later, but for
      those behind the place of the twelfth. */
  ghost predicate TakesTheFirst(items: seq<string>, cleaned: seq<string>, at: seq<nat>, lower: string -> string) {
    && |at| == |cleaned|
    && (forall k :: 0 <= k < |at| ==> at[k] < |items| && cleaned[k] == Strip(items[at[k]]))
    && (forall k, m :: 0 <= k < m < |at| ==> at[k] < at[m])
    && forall i :: 0 <= i < |items| && (|cleaned| < 12 || i <= at[11]) ==> Told(Strip(items[i]), cleaned, at, i, lower)
  }

  ghost predicate Told(text: string, cleaned: seq<string>, at: seq<nat>, i: nat, lower: string -> string)
    requires |at| == |cleaned|
  {
    text == "" || exists k :: 0 <= k < |cleaned| && at[k] <= i && lower(cleaned[k]) == lower(text)
  }

  /** Which terms are kept: the first twelve that are not blank and not the same as one before, whatever their case. */
  lemma {:induction false} CleanedTakesTheFirst(items: seq<string>, lower: string -> string) returns (at: seq<nat>)
    ensures TakesTheFirst(items, Cleaned(items, lower), at, lower)
  {
    hide Strip;
    if items == [] {
      at := [];
    } else {
      var n := |items| - 1;
      var before, text := Cleaned(items[..n], lower), Strip(items[n]);
      at := CleanedTakesTheFirst(items[..n], lower);
      CleanedIsTidy(items[..n], lower);
      CleanedStep(items, items[..n], items[n], lower);
      hide Cleaned, Tidy;
      if |before| < 12 && text != "" && !Listed(before, text, lower) {
        TakesOneMore(items, n, before, at, lower);
        at := at + [n];
      } else {
        TakesNoMore(items, n, before, at, lower);
      }
    }
  }

  lemma TakesOneMore(items: seq<string>, n: nat, before: seq<string>, at: seq<nat>, lower: string -> string)
    requires |items| == n + 1 && |before| < 12 && TakesTheFirst(items[..n], before, at, lower)
    ensures TakesTheFirst(items, before + [Strip(items[n])], at + [n], lower)
  {
    hide Strip;
    var after, more := before + [Strip(items[n])], at + [n];
    assert forall i :: 0 <= i < n ==> items[..n][i] == items[i];
    forall i | 0 <= i < |items| ensures Told(Strip(items[i]), after, more, i, lower) {
      if i < n {
        assert Told(Strip(items[..n][i]), before, at, i, lower);
        if Strip(items[i]) != "" {
          var k :| 0 <= k < |before| && at[k] <= i && lower(before[k]) == lower(Strip(items[i]));
          assert after[k] == before[k] && more[k] == at[k];
        }
      } else {
        assert after[|before|] == Strip(items[n]) && more[|before|] == n;
      }
    }
  }

  lemma TakesNoMore(items: seq<string>, n: nat, before: seq<string>, at: seq<nat>, lower: string -> string)
    requires |items| == n + 1 && |before| <= 12 && TakesTheFirst(items[..n], before, at, lower)
    requires |before| == 12 || Strip(items[n]) == "" || Listed(before, Strip(items[n]), lower)
    ensures TakesTheFirst(items, before, at, lower)
  {
    hide Strip;
    assert forall i :: 0 <= i < n ==> items[..n][i] == items[i];
    forall i | 0 <= i < |items| && (|before| < 12 || i <= at[11]) ensures Told(Strip(items[i]), before, at, i, lower) {
      if i < n {
        assert Told(Strip(items[..n][i]), before, at, i, lower);
      } else if Strip(items[n]) != "" {
        var k :| 0 <= k < |before| && lower(before[k]) == lower(Strip(items[n]));
        assert at[k] < n;
      }
    }
  }

  /** Exactly the tidy lists are left as they are; so cleaning twice is cleaning once. */
  lemma {:induction false} TidyIsKept(terms: seq<string>, lower: string -> string)
    ensures Cleaned(terms, lower) == terms <==> Tidy(terms, lower)
  {
    hide Strip;
    CleanedIsTidy(terms, lower);
    if Tidy(terms, lower) && terms != [] {
      var n := |terms| - 1;
      TidyIsKept(terms[..n], lower);
      assert terms == terms[..n] + [terms[n]];
      assert !Listed(terms[..n], terms[n], lower);
    }
  }

  // ---------------------------------------------------------------- counting

  function CountOf(counts: Counts, term: string): nat {
    if term in counts then counts[term] else 0
  }

  function Bumped(counts: Counts, terms: seq<string>): Counts {
    if terms == [] then counts
    else
      var before, term := Bumped(counts, terms[..|terms| - 1]), terms[|terms| - 1];
      before[term := CountOf(before, term) + 1]
  }

  method Bump(counts: Counts, terms: seq<string>) returns (merged: Counts)
    ensures merged == Bumped(counts, terms)
  {
    merged := counts;
    assert terms[..|terms|] == terms;
    for i := 0 to |terms|
      invariant merged == Bumped(counts, terms[..i])
    {
      assert terms[..i + 1][..i] == terms[..i];
      merged := merged[terms[i] := CountOf(merged, terms[i]) + 1];
    }
  }

  /** The document's type as a list, empty when it has none. */
  function TypeList(profile: Profile): seq<string> {
    if profile.documentType == "" then [] else [profile.documentType]
  }

  function Merged(w: WorkspaceProfile, profile: Profile): WorkspaceProfile {
    WorkspaceProfile(
      Bumped(w.topics, profile.topics),
      Bumped(w.entities, profile.entities),
      Bumped(w.documentTypes, TypeList(profile)),
      w.documentCount + 1)
  }

  /** What `merge_workspace_profile` accumulates, one document after another. */
  function Accumulated(profiles: seq<Profile>): WorkspaceProfile {
    if profiles == [] then EMPTY else Merged(Accumulated(profiles[..|profiles| - 1]), profiles[|profiles| - 1])
  }

  /** A stored profile as the rebuild reads it back. */
  function Reread(profile: Profile, lower: string -> string): Profile {
    Profile(profile.documentType, Cleaned(profile.topics, lower), Cleaned(profile.entities, lower))
  }

  function RereadAll(profiles: seq<Profile>, lower: string -> string): seq<Profile> {
    seq(|profiles|, i requires 0 <= i < |profiles| => Reread(profiles[i], lower))
  }

  method MergeWorkspaceProfile(w: WorkspaceProfile, profile: Profile) returns (merged: WorkspaceProfile)
    ensures merged == Merged(w, profile)
  {
    var topics := Bump(w.topics, profile.topics);
    var entities := Bump(w.entities, profile.entities);
    var types := Bump(w.documentTypes, if profile.documentType != "" then [profile.documentType] else []);
    merged := WorkspaceProfile(topics, entities, types, w.documentCount + 1);
  }

  method RebuildWorkspaceProfile(profiles: seq<Profile>, lower: string -> string) returns (w: WorkspaceProfile)
    ensures w == Accumulated(RereadAll(profiles, lower))
  {
    hide Merged, Cleaned;
    w := EMPTY;
    assert profiles[..|profiles|] == profiles;
    for i := 0 to |profiles|
      invariant w == Accumulated(RereadAll(profiles[..i], lower))
    {
      assert RereadAll(profiles[..i + 1], lower)[..i] == RereadAll(profiles[..i], lower);
      var topics := StringList(profiles[i].topics, lower);
      var entities := StringList(profiles[i].entities, lower);
      w := MergeWorkspaceProfile(w, Profile(profiles[i].documentType, topics, entities));
    }
  }

  ghost predicate TidyProfile(profile: Profile, lower: string -> string) {
    Tidy(profile.topics, lower) && Tidy(profile.entities, lower)
  }

  /** Rebuilding from stored profiles gives what merging them one by one gave, if every stored list is as
      `_string_list` left it. */
  lemma RebuildIsAccumulation(profiles: seq<Profile>, lower: string -> string)
    requires forall i :: 0 <= i < |profiles| ==> TidyProfile(profiles[i], lower)
    ensures Accumulated(RereadAll(profiles, lower)) == Accumulated(profiles)
  {
    forall i | 0 <= i < |profiles| ensures Reread(profiles[i], lower) == profiles[i] {
      assert TidyProfile(profiles[i], lower);
      TidyIsKept(profiles[i].topics, lower);
      TidyIsKept(profiles[i].entities, lower);
    }
    assert RereadAll(profiles, lower) == profiles;
  }

  // ---------------------------------------------------------------- what the counts mean

  /** No term twice. */
  ghost predicate Once(terms: seq<string>) {
    forall i, j :: 0 <= i < j < |terms| ==> terms[i] != terms[j]
  }

  lemma {:induction false} BumpedCounts(counts: Counts, terms: seq<string>, term: string)
    requires Once(terms)
    ensures CountOf(Bumped(counts, terms), term) == CountOf(counts, term) + if term in terms then 1 else 0
    ensures term in Bumped(counts, terms) <==> term in counts || term in terms
  {
    if terms != [] {
      var n := |terms| - 1;
      BumpedCounts(counts, terms[..n], term);
      assert terms == terms[..n] + [terms[n]];
      assert terms[n] !in terms[..n];
    }
  }

  /** How many documents list the term. `list` picks one list out of a profile. */
  function Listing(profiles: seq<Profile>, list: Profile -> seq<string>, term: string): (n: nat)
    ensures n <= |profiles|
  {
    if profiles == [] then 0
    else Listing(profiles[..|profiles| - 1], list, term) + if term in list(profiles[|profiles| - 1]) then 1 else 0
  }

  function BumpedAll(profiles: seq<Profile>, list: Profile -> seq<string>): Counts {
    if profiles == [] then map[] else Bumped(BumpedAll(profiles[..|profiles| - 1], list), list(profiles[|profiles| - 1]))
  }

  /** Over lists without repeats, a term's count is the number of documents that list it, and only listed terms
      are counted. */
  lemma {:induction false} CountsAreListings(profiles: seq<Profile>, list: Profile -> seq<string>, term: string)
    requires forall p :: Once(list(p))
    ensures CountOf(BumpedAll(profiles, list), term) == Listing(profiles, list, term)
    ensures term in BumpedAll(profiles, list) <==> Listing(profiles, list, term) > 0
  {
    if profiles != [] {
      var n := |profiles| - 1;
      CountsAreListings(profiles[..n], list, term);
      assert Once(list(profiles[n]));
      BumpedCounts(BumpedAll(profiles[..n], list), list(profiles[n]), term);
    }
  }

  lemma {:induction false} ListingWithout(profiles: seq<Profile>, i: nat, list: Profile -> seq<string>, term: string)
    requires i < |profiles|
    ensures Listing(profiles, list, term) == Listing(profiles[..i] + profiles[i + 1..], list, term) + if term in list(profiles[i]) then 1 else 0
  {
    var n := |profiles| - 1;
    var without := profiles[..i] + profiles[i + 1..];
    if i == n {
      assert without == profiles[..n];
    } else {
      ListingWithout(profiles[..n], i, list, term);
      assert without[..n - 1] == profiles[..n][..i] + profiles[..n][i + 1..];
    }
  }

  lemma WithoutOne<T>(xs: seq<T>, i: nat)
    requires i < |xs|
    ensures multiset(xs[..i] + xs[i + 1..]) == multiset(xs) - multiset{xs[i]}
  {
    assert xs == xs[..i] + [xs[i]] + xs[i + 1..];
  }

  lemma {:induction false} ListingIgnoresOrder(a: seq<Profile>, b: seq<Profile>, list: Profile -> seq<string>, term: string)
    requires multiset(a) == multiset(b)
    ensures Listing(a, list, term) == Listing(b, list, term)
  {
    if a == [] {
      assert |b| == |multiset(b)| == 0;
    } else {
      var n := |a| - 1;
      assert a[n] in multiset(b);
      var i :| 0 <= i < |b| && b[i] == a[n];
      WithoutOne(a, n);
      WithoutOne(b, i);
      assert a[..n] + a[n + 1..] == a[..n];
      ListingIgnoresOrder(a[..n], b[..i] + b[i + 1..], list, term);
      ListingWithout(b, i, list, term);
    }
  }

  function TopicsOf(lower: string -> string): Profile -> seq<string> {
    (p: Profile) => Cleaned(p.topics, lower)
  }

  function EntitiesOf(lower: string -> string): Profile -> seq<string> {
    (p: Profile) => Cleaned(p.entities, lower)
  }

  function Type(): Profile -> seq<string> {
    (p: Profile) => if p.documentType == "" then [] else [p.documentType]
  }

  lemma {:induction false} RebuiltParts(profiles: seq<Profile>, lower: string -> string)
    ensures var w := Accumulated(RereadAll(profiles, lower));
      w == WorkspaceProfile(BumpedAll(profiles, TopicsOf(lower)), BumpedAll(profiles, EntitiesOf(lower)), BumpedAll(profiles, Type()), |profiles|)
  {
    hide Bumped, Cleaned;
    if profiles != [] {
      var n := |profiles| - 1;
      RebuiltParts(profiles[..n], lower);
      assert RereadAll(profiles, lower)[..n] == RereadAll(profiles[..n], lower);
    }
  }

  lemma ListsHaveNoRepeats(lower: string -> string)
    ensures forall p :: Once(TopicsOf(lower)(p))
    ensures forall p :: Once(EntitiesOf(lower)(p))
    ensures forall p :: Once(Type()(p))
  {
    forall p: Profile ensures Once(TopicsOf(lower)(p)) && Once(EntitiesOf(lower)(p)) && Once(Type()(p)) {
      CleanedIsTidy(p.topics, lower);
      CleanedIsTidy(p.entities, lower);
      hide Cleaned;
      TidyHasNoRepeats(Cleaned(p.topics, lower), lower);
      TidyHasNoRepeats(Cleaned(p.entities, lower), lower);
    }
  }

  lemma TidyHasNoRepeats(terms: seq<string>, lower: string -> string)
    requires Tidy(terms, lower)
    ensures Once(terms)
  {
    forall i, j | 0 <= i < j < |terms| ensures terms[i] != terms[j] {
      assert lower(terms[i]) != lower(terms[j]);
    }
  }

  /** A rebuilt vocabulary counts documents: each topic, entity and type is counted once for each document that
      lists it, nothing else is in the vocabulary, and no count exceeds the number of documents. */
  lemma RebuiltCountsDocuments(profiles: seq<Profile>, lower: string -> string, term: string)
    ensures var w := Accumulated(RereadAll(profiles, lower));
      && CountOf(w.topics, term) == Listing(profiles, TopicsOf(lower), term) <= w.documentCount
      && CountOf(w.entities, term) == Listing(profiles, EntitiesOf(lower), term) <= w.documentCount
      && CountOf(w.documentTypes, term) == Listing(profiles, Type(), term) <= w.documentCount
      && w.documentCount == |profiles|
      && (term in w.topics <==> CountOf(w.topics, term) > 0)
      && (term in w.entities <==> CountOf(w.entities, term) > 0)
      && (term in w.documentTypes <==> CountOf(w.documentTypes, term) > 0)
  {
    hide Once, BumpedAll, Listing, Accumulated, RereadAll;
    RebuiltParts(profiles, lower);
    ListsHaveNoRepeats(lower);
    CountsAreListings(profiles, TopicsOf(lower), term);
    CountsAreListings(profiles, EntitiesOf(lower), term);
    CountsAreListings(profiles, Type(), term);
  }

  lemma CountsIgnoreOrder(a: seq<Profile>, b: seq<Profile>, list: Profile -> seq<string>)
    requires multiset(a) == multiset(b) && forall p :: Once(list(p))
    ensures BumpedAll(a, list) == BumpedAll(b, list)
  {
    hide BumpedAll, Once;
    forall term: string ensures (term in BumpedAll(a, list) <==> term in BumpedAll(b, list)) && CountOf(BumpedAll(a, list), term) == CountOf(BumpedAll(b, list), term) {
      CountsAreListings(a, list, term);
      CountsAreListings(b, list, term);
      ListingIgnoresOrder(a, b, list, term);
    }
  }

  /** The order in which documents are read does not matter. */
  lemma RebuiltIgnoresOrder(a: seq<Profile>, b: seq<Profile>, lower: string -> string)
    requires multiset(a) == multiset(b)
    ensures Accumulated(RereadAll(a, lower)) == Accumulated(RereadAll(b, lower))
  {
    RebuiltParts(a, lower);
    RebuiltParts(b, lower);
    ListsHaveNoRepeats(lower);
    assert |a| == |multiset(a)| == |multiset(b)| == |b|;
    CountsIgnoreOrder(a, b, TopicsOf(lower));
    CountsIgnoreOrder(a, b, EntitiesOf(lower));
    CountsIgnoreOrder(a, b, Type());
  }
}

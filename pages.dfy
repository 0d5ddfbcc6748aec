/**
 * The two read-only page routes over the knowledge base: `home`, which lists
 * every disease except `healthy`, and `disease_detail`, which looks a disease
 * up by its lower-cased name. Template rendering is reduced to the values the
 * route hands to its template.
 */
module Pages {
  import opened Wrappers
  import Ascii
  import opened KnowledgeBase

  const Healthy := "healthy"

  /** One item of the list `home` passes to its template. */
  datatype DiseaseCard = DiseaseCard(name: string, description: string, symptomsCount: nat)

  /** The card shows the key title-cased, which still lower-cases back to the key. */
  function Card(e: Entry): (r: DiseaseCard)
    ensures Ascii.Lower(r.name) == Ascii.Lower(e.key) && Ascii.Title(r.name) == r.name
    ensures r.description == e.info.description && r.symptomsCount == |e.info.symptoms|
  {
    Ascii.LowerOfTitle(e.key);
    Ascii.TitleIdempotent(e.key);
    DiseaseCard(Ascii.Title(e.key), e.info.description, |e.info.symptoms|)
  }

  /** The entries `home` lists: those not keyed `healthy`, in table order. */
  function Listed(t: Table): (r: Table)
    ensures |r| <= |t|
    ensures forall i :: 0 <= i < |r| ==> r[i].key != Healthy
    decreases |t|
  {
    if t == [] then []
    else Listed(t[..|t| - 1]) + (if t[|t| - 1].key != Healthy then [t[|t| - 1]] else [])
  }

  /** An entry is listed exactly when it is in the table and is not `healthy`. */
  lemma {:induction false} ListedMembers(t: Table, e: Entry)
    ensures e in Listed(t) <==> e in t && e.key != Healthy
    decreases |t|
  {
    if t != [] {
      var init := t[..|t| - 1];
      ListedMembers(init, e);
      assert t == init + [t[|t| - 1]];
    }
  }

  /** Listing a concatenation lists the first part, then the second: table order is kept. */
  lemma {:induction false} ListedConcat(a: Table, b: Table)
    ensures Listed(a + b) == Listed(a) + Listed(b)
    decreases |b|
  {
    if b == [] {
      assert a + b == a;
    } else {
      var init := b[..|b| - 1];
      ListedConcat(a, init);
      assert (a + b)[..|a + b| - 1] == a + init;
      assert (a + b)[|a + b| - 1] == b[|b| - 1];
    }
  }

  /**
   * The `home` route: a loop over the table's items that appends one card per
   * entry other than `healthy`, with its title-cased name, its description and
   * the number of its symptoms.
   */
  method Home(t: Table) returns (cards: seq<DiseaseCard>)
    ensures |cards| == |Listed(t)|
    ensures forall i :: 0 <= i < |cards| ==> cards[i] == Card(Listed(t)[i])
  {
    cards := [];
    var n := 0;
    while n < |t|
      invariant n <= |t|
      invariant |cards| == |Listed(t[..n])|
      invariant forall i :: 0 <= i < |cards| ==> cards[i] == Card(Listed(t[..n])[i])
    {
      assert t[..n + 1][..n] == t[..n];
      if t[n].key != Healthy {
        cards := cards + [Card(t[n])];
      }
      n := n + 1;
    }
    assert t[..n] == t;
  }

  /** A table that starts with its only `healthy` entry is listed without its head. */
  lemma ListedSkipsHead(t: Table)
    requires t != [] && t[0].key == Healthy
    requires forall i :: 1 <= i < |t| ==> t[i].key != Healthy
    ensures Listed(t) == t[1..]
  {
    ListedSplit(t, 1);
    assert Listed(t[..1]) == [] by {
      assert t[..1][..0] == [];
    }
    ListedAll(t[1..]);
  }

  lemma ListedSplit(t: Table, h: nat)
    requires h <= |t|
    ensures Listed(t) == Listed(t[..h]) + Listed(t[h..])
  {
    assert t == t[..h] + t[h..];
    ListedConcat(t[..h], t[h..]);
  }

  lemma ListedPrefix(t: Table, h: nat)
    requires h <= |t|
    requires forall i :: 0 <= i < h ==> t[i].key != Healthy
    ensures Listed(t[..h]) == t[..h]
  {
    ListedAll(t[..h]);
  }

  lemma ListedSuffix(t: Table, h: nat)
    requires h < |t| && t[h].key == Healthy
    requires forall i :: h < i < |t| ==> t[i].key != Healthy
    ensures Listed(t[h..]) == t[h + 1..]
  {
    ListedSkipsHead(t[h..]);
    assert t[h..][1..] == t[h + 1..];
  }

  /** A table whose only `healthy` entry is at `h` is listed without that entry. */
  lemma ListedSkipsHealthy(t: Table, h: nat)
    requires h < |t| && t[h].key == Healthy
    requires forall i :: 0 <= i < |t| && i != h ==> t[i].key != Healthy
    ensures Listed(t) == t[..h] + t[h + 1..]
  {
    ListedSplit(t, h);
    ListedPrefix(t, h);
    ListedSuffix(t, h);
  }

  /** A table without a `healthy` entry is listed whole. */
  lemma {:induction false} ListedAll(t: Table)
    requires forall i :: 0 <= i < |t| ==> t[i].key != Healthy
    ensures Listed(t) == t
    decreases |t|
  {
    if t != [] {
      ListedAll(t[..|t| - 1]);
    }
  }

  /** On the shipped table, `home` lists nine of the ten entries, each with four symptoms. */
  lemma HomeListsNine()
    ensures |Listed(DiseaseInfo)| == 9
    ensures forall e :: e in Listed(DiseaseInfo) ==> e.key != Healthy
    ensures forall i :: 0 <= i < 9 ==> Card(Listed(DiseaseInfo)[i]).symptomsCount == 4
  {
    HealthyIsThird();
    DiseaseInfoDescribed();
    ListedSkipsHealthy(DiseaseInfo, 2);
    forall e | e in Listed(DiseaseInfo) ensures e.key != Healthy {
      ListedMembers(DiseaseInfo, e);
    }
  }

  /** What `disease_detail` returns: the rendered page's arguments, or the 404 text. */
  datatype DetailPage = Rendered(diseaseName: string, info: DiseaseRecord) | NotFound(message: string, status: int)

  const NotFoundStatus := 404

  /**
   * The `disease_detail` route over table `t` (the route uses `DISEASE_INFO`):
   * look up the lower-cased name; 404 when it is absent.
   */
  function DiseaseDetail(t: Table, diseaseName: string): (r: DetailPage)
    ensures r.NotFound? <==> forall i :: 0 <= i < |t| ==> t[i].key != Ascii.Lower(diseaseName)
    ensures r.NotFound? ==> r == NotFound("Disease not found", NotFoundStatus)
    ensures r.Rendered? ==> r.diseaseName == Ascii.Title(diseaseName)
                            && exists i :: 0 <= i < |t| && t[i] == Entry(Ascii.Lower(diseaseName), r.info)
  {
    match Lookup(t, Ascii.Lower(diseaseName))
    case Some(info) => Rendered(Ascii.Title(diseaseName), info)
    case None => NotFound("Disease not found", NotFoundStatus)
  }

  /** In a table with distinct lower-case keys, any casing of a key renders that key's record. */
  lemma {:induction false} DetailIgnoresCase(t: Table, diseaseName: string, i: nat)
    requires DistinctKeys(t)
    requires i < |t| && Ascii.IsLowerCase(t[i].key)
    requires Ascii.Lower(diseaseName) == Ascii.Lower(t[i].key)
    ensures DiseaseDetail(t, diseaseName) == Rendered(Ascii.Title(diseaseName), t[i].info)
  {
  }

  /** Any casing of a disease name of the shipped table renders that disease's record. */
  lemma DetailFindsAnyCasing(diseaseName: string, i: nat)
    requires i < |DiseaseInfo| && Ascii.Lower(diseaseName) == Ascii.Lower(DiseaseInfo[i].key)
    ensures DiseaseDetail(DiseaseInfo, diseaseName) == Rendered(Ascii.Title(diseaseName), DiseaseInfo[i].info)
  {
    DiseaseInfoLowerCase();
    DiseaseInfoDistinct();
    DetailIgnoresCase(DiseaseInfo, diseaseName, i);
  }

  /** The title-cased name on a `home` card leads back to that disease's record. */
  lemma CardNameFindsDetail(t: Table, i: nat)
    requires DistinctKeys(t)
    requires i < |t| && Ascii.IsLowerCase(t[i].key)
    ensures DiseaseDetail(t, Card(t[i]).name) == Rendered(Card(t[i]).name, t[i].info)
  {
    var key := t[i].key;
    Ascii.LowerOfTitle(key);
    Ascii.TitleIdempotent(key);
    DetailIgnoresCase(t, Ascii.Title(key), i);
  }

  lemma UnknownDiseaseNotFound()
    ensures DiseaseDetail(DiseaseInfo, "unknown-disease") == NotFound("Disease not found", 404)
  {
    DiseaseInfoKeys();
    var ks := Keys(DiseaseInfo);
    assert Ascii.Lower("unknown-disease") == "unknown-disease";
    assert forall i :: 0 <= i < |DiseaseInfo| ==> ks[i] != "unknown-disease";
  }
}

/**
 * The provider marketplace's listing endpoint: a fixed catalogue, projected with an
 * `installed` flag read from the list of installed provider ids.
 */
module Providers {
  import opened Wrappers

  datatype ProviderKind = Native | Connectable

  /** One catalogue entry; connectable providers carry no plans. */
  datatype Provider = Provider(
    id: string,
    name: string,
    description: string,
    kind: ProviderKind,
    installed: bool,
    plans: Option<seq<string>>,
    website: string,
    pricing: string,
    documentation: string)

  /** The mock catalogue entries. */
  const XaiEntry :=
    Provider("xai-marketplace", "xAIMarketplace",
    "An AI service with an efficient text model and a wide context image understanding model.",
    Native, false, Some(["Free", "Pro", "Enterprise"]), "/docs/ai/xai", "See website", "/docs/ai/xai")
  const GroqEntry :=
    Provider("groq-marketplace", "GroqMarketplace",
    "A high-performance AI inference service with an ultra-fast Language Processing Unit (LPU) architecture.",
    Native, false, Some(["Basic", "Advanced"]), "/docs/ai/groq", "See website", "/docs/ai/groq")
  const FalEntry :=
    Provider("fal-marketplace", "falMarketplace",
    "A serverless AI inferencing platform for creative processes.",
    Native, false, Some(["Starter", "Business"]), "/docs/ai/fal", "See website", "/docs/ai/fal")
  const DeepInfraEntry :=
    Provider("deepinfra-marketplace", "DeepInfraMarketplace",
    "A platform with access to a vast library of open-source models.",
    Native, false, Some(["Free", "Premium"]), "/docs/ai/deepinfra", "See website", "/docs/ai/deepinfra")
  const ConnectableExampleEntry :=
    Provider("connectable-example", "Example Connectable Provider",
    "A connectable account provider example.",
    Connectable, false, None, "https://example.com", "See website", "https://example.com/docs")
  const ElevenLabsEntry :=
    Provider("elevenlabs", "ElevenLabs",
    "Advanced voice synthesis and audio processing technologies for natural-sounding speech and audio enhancements.",
    Connectable, false, None, "https://elevenlabs.io", "See https://elevenlabs.io/pricing", "https://elevenlabs.io/docs")
  const LmntEntry :=
    Provider("lmnt", "LMNT",
    "Data processing and predictive analytics models for high quality text-to-speech and custom voices with low latency.",
    Connectable, false, None, "https://lmnt.com", "See https://lmnt.com/pricing", "https://docs.lmnt.com")
  const PineconeEntry :=
    Provider("pinecone", "Pinecone",
    "A vector database service for machine learning models, content recommendation, personalized search, and more.",
    Connectable, false, None, "https://pinecone.io", "See https://pinecone.io/pricing", "https://docs.pinecone.io")

  /** The mock catalogue, in the order the endpoint returns it. */
  const Catalogue: seq<Provider> :=
    [XaiEntry, GroqEntry, FalEntry, DeepInfraEntry, ConnectableExampleEntry, ElevenLabsEntry, LmntEntry, PineconeEntry]

  /** No two entries of `ps` share an id. */
  predicate DistinctIds(ps: seq<Provider>)
  {
    forall i, j :: 0 <= i < j < |ps| ==> ps[i].id != ps[j].id
  }

  /** The first letters of the catalogue ids, in catalogue order; they are pairwise different. */
  const IdInitials := "xgfdcelp"

  lemma CatalogueInitials()
    ensures |Catalogue| == |IdInitials|
    ensures forall i :: 0 <= i < |Catalogue| ==> |Catalogue[i].id| > 0 && Catalogue[i].id[0] == IdInitials[i]
  {
    assert XaiEntry.id[0] == 'x';
    assert GroqEntry.id[0] == 'g';
    assert FalEntry.id[0] == 'f';
    assert DeepInfraEntry.id[0] == 'd';
    assert ConnectableExampleEntry.id[0] == 'c';
    assert ElevenLabsEntry.id[0] == 'e';
    assert LmntEntry.id[0] == 'l';
    assert PineconeEntry.id[0] == 'p';
  }

  /** The initials are pairwise different characters. */
  lemma InitialsDistinct()
    ensures forall i, j :: 0 <= i < j < |IdInitials| ==> IdInitials[i] != IdInitials[j]
  {
  }

  /** The catalogue lists eight providers, each id once, none of them installed. */
  lemma CatalogueWellFormed()
    ensures |Catalogue| == 8
    ensures DistinctIds(Catalogue)
    ensures forall i :: 0 <= i < |Catalogue| ==> !Catalogue[i].installed
  {
    CatalogueInitials();
    InitialsDistinct();
  }

  /** Stamps one entry with its installed flag; the catalogue entry itself is a value and stays as it was. */
  function Stamp(p: Provider, installedIds: seq<string>): (r: Provider)
    ensures r.installed <==> p.id in installedIds
    ensures r.(installed := p.installed) == p
  {
    p.(installed := p.id in installedIds)
  }

  /**
   * GET: every catalogue entry in catalogue order, flagged installed exactly when its id is in
   * the installed list, with every other field as in the catalogue. The catalogue is the
   * read-only configuration value, `Catalogue` in the deployed endpoint.
   */
  function ListProviders(catalogue: seq<Provider>, installedIds: seq<string>): (r: seq<Provider>)
    ensures |r| == |catalogue|
    ensures forall i :: 0 <= i < |r| ==> r[i].id == catalogue[i].id
    ensures forall i :: 0 <= i < |r| ==> (r[i].installed <==> catalogue[i].id in installedIds)
    ensures forall i :: 0 <= i < |r| ==> r[i].(installed := catalogue[i].installed) == catalogue[i]
  {
    seq(|catalogue|, i requires 0 <= i < |catalogue| => Stamp(catalogue[i], installedIds))
  }

  /** The endpoint as deployed, over the fixed catalogue. */
  function ServeProviders(installedIds: seq<string>): seq<Provider>
  {
    ListProviders(Catalogue, installedIds)
  }

  /** Over a catalogue with distinct ids, the listing shows each id at most once, so its flag is well defined. */
  lemma FlagPerIdWellDefined(catalogue: seq<Provider>, installedIds: seq<string>)
    requires DistinctIds(catalogue)
    ensures DistinctIds(ListProviders(catalogue, installedIds))
  {
  }

  /** The listing depends on the installed list only through membership: duplicates and order do not matter. */
  lemma ListingDependsOnMembership(catalogue: seq<Provider>, a: seq<string>, b: seq<string>)
    requires forall id :: id in a <==> id in b
    ensures ListProviders(catalogue, a) == ListProviders(catalogue, b)
  {
    var la, lb := ListProviders(catalogue, a), ListProviders(catalogue, b);
    forall i | 0 <= i < |la|
      ensures la[i] == lb[i]
    {
      assert la[i] == la[i].(installed := catalogue[i].installed).(installed := la[i].installed);
      assert lb[i] == lb[i].(installed := catalogue[i].installed).(installed := lb[i].installed);
    }
  }
}

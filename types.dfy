/**
 * The records of the workflow (types.ts) and the four content-type labels in
 * the order the application lists them (CONTENT_TYPES in constants.ts).
 */
module Types {

  /** The four video archetypes; a closed set used as a record key throughout. */
  datatype ContentType = DustCore | ClayCore | StarchCore | CuttingSoap {
    /** The label the source uses for this type (also its key in every record). */
    function Label(): string {
      match this
      case DustCore => "Dust Core"
      case ClayCore => "Clay Core"
      case StarchCore => "Starch Core"
      case CuttingSoap => "Cutting Soap"
    }
  }

  /** CONTENT_TYPES: the labels in display and request order. */
  const AllContentTypes: seq<ContentType> := [DustCore, ClayCore, StarchCore, CuttingSoap]

  /** ContentType is exactly the four labels: every type is listed once, and labels identify types. */
  lemma ContentTypesClosed()
    ensures |AllContentTypes| == 4
    ensures forall t: ContentType :: t in AllContentTypes
    ensures forall i, j :: 0 <= i < j < |AllContentTypes| ==> AllContentTypes[i] != AllContentTypes[j]
    ensures forall t: ContentType, u: ContentType :: t.Label() == u.Label() ==> t == u
  {
    forall t: ContentType ensures t in AllContentTypes {
      match t
      case DustCore => assert AllContentTypes[0] == t;
      case ClayCore => assert AllContentTypes[1] == t;
      case StarchCore => assert AllContentTypes[2] == t;
      case CuttingSoap => assert AllContentTypes[3] == t;
    }
  }

  /**
   * `Record<ContentType, T>`: one value for every content type. Being a record
   * with one field per type, it can never miss a key.
   */
  datatype PerType<T> = PerType(dustCore: T, clayCore: T, starchCore: T, cuttingSoap: T) {

    function Get(t: ContentType): T {
      match t
      case DustCore => dustCore
      case ClayCore => clayCore
      case StarchCore => starchCore
      case CuttingSoap => cuttingSoap
    }

    /** `{ ...record, [t]: v }`: only the entry for `t` changes. */
    function Set(t: ContentType, v: T): (r: PerType<T>)
      ensures r.Get(t) == v
      ensures forall u :: u != t ==> r.Get(u) == Get(u)
    {
      match t
      case DustCore => this.(dustCore := v)
      case ClayCore => this.(clayCore := v)
      case StarchCore => this.(starchCore := v)
      case CuttingSoap => this.(cuttingSoap := v)
    }
  }

  /** Two per-type records with the same entries are the same record. */
  lemma PerTypeExtensional<T>(a: PerType<T>, b: PerType<T>)
    requires forall t :: a.Get(t) == b.Get(t)
    ensures a == b
  {
    assert a.Get(DustCore) == b.Get(DustCore);
    assert a.Get(ClayCore) == b.Get(ClayCore);
    assert a.Get(StarchCore) == b.Get(StarchCore);
    assert a.Get(CuttingSoap) == b.Get(CuttingSoap);
  }

  /** Reads a dictionary that has an entry for every content type as a per-type record. */
  function FromMap<T>(m: map<ContentType, T>): (r: PerType<T>)
    requires forall t :: t in m
    ensures forall t :: r.Get(t) == m[t]
  {
    PerType(m[DustCore], m[ClayCore], m[StarchCore], m[CuttingSoap])
  }

  /** The four final prompts and the tone block they were generated from. */
  datatype GeneratedResult = GeneratedResult(prompts: PerType<string>, finalToneBlock: string) {
    /** `{ ...prev, prompts: { ...prev.prompts, [t]: p } }` */
    function WithPrompt(t: ContentType, p: string): (r: GeneratedResult)
      ensures r.prompts.Get(t) == p
      ensures forall u :: u != t ==> r.prompts.Get(u) == prompts.Get(u)
      ensures r.finalToneBlock == finalToneBlock
    {
      this.(prompts := prompts.Set(t, p))
    }
  }

  /** The tone-block template and one master prompt per content type. */
  datatype PromptTemplates = PromptTemplates(toneBlockTemplate: string, masterPrompts: PerType<string>)

  /** One saved session: an id, a timestamp and a value copy of one result. */
  datatype HistoryItem = HistoryItem(id: string, timestamp: int, result: GeneratedResult)

  /** The six workflow states. */
  datatype AppStatus = Idle | AnalyzingTone | ReviewTone | GeneratingPrompts | Success | Error {
    /** The string value of the enum member. */
    function Value(): string {
      match this
      case Idle => "IDLE"
      case AnalyzingTone => "ANALYZING_TONE"
      case ReviewTone => "REVIEW_TONE"
      case GeneratingPrompts => "GENERATING_PROMPTS"
      case Success => "SUCCESS"
      case Error => "ERROR"
    }
  }

  const AllAppStatuses: seq<AppStatus> :=
    [Idle, AnalyzingTone, ReviewTone, GeneratingPrompts, Success, Error]

  /** AppStatus has exactly six states, each with its own string value. */
  lemma AppStatusesClosed()
    ensures |AllAppStatuses| == 6
    ensures forall st: AppStatus :: st in AllAppStatuses
    ensures forall i, j :: 0 <= i < j < |AllAppStatuses| ==> AllAppStatuses[i] != AllAppStatuses[j]
    ensures forall st: AppStatus, st': AppStatus :: st.Value() == st'.Value() ==> st == st'
  {
    forall st: AppStatus ensures st in AllAppStatuses {
      match st
      case Idle => assert AllAppStatuses[0] == st;
      case AnalyzingTone => assert AllAppStatuses[1] == st;
      case ReviewTone => assert AllAppStatuses[2] == st;
      case GeneratingPrompts => assert AllAppStatuses[3] == st;
      case Success => assert AllAppStatuses[4] == st;
      case Error => assert AllAppStatuses[5] == st;
    }
  }
}

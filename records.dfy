/** The decoded sensor container and the lookups that read one channel out
    of it. The container decoder itself is outside the model: a recording is
    given as the list of records it produces. */
module Records {
  import opened Outcomes

  /** One channel group of `rawData`: its samples and its declared rate. */
  datatype ChannelGroup = ChannelGroup(values: seq<real>, samplingFrequency: real)

  /** The `rawData` grouping of one record. */
  datatype RawData = RawData(bvp: ChannelGroup, temperature: ChannelGroup, eda: ChannelGroup)

  datatype Record = Record(rawData: RawData)

  /** The decoded container: the records in file order. */
  type Recording = seq<Record>

  /** The three channels, in the order the label dropdown offers them. */
  datatype Channel = Bvp | Temperature | Eda

  /** The dropdown label that selects a channel. */
  function Label(c: Channel): string {
    match c
    case Bvp => "BVP"
    case Temperature => "Temperature"
    case Eda => "EDA"
  }

  /** The group of `rawData` a channel is stored under. */
  function Group(raw: RawData, c: Channel): ChannelGroup {
    match c
    case Bvp => raw.bvp
    case Temperature => raw.temperature
    case Eda => raw.eda
  }

  /** `get_bvp_values`: the pulse samples of the first record. */
  function GetBvpValues(users: Recording): (r: Result<seq<real>>)
    ensures r.Ok? <==> |users| > 0
    ensures r.Err? ==> r.error == EmptyContainer
    ensures r.Ok? ==> r.value == Group(users[0].rawData, Bvp).values
  {
    if |users| == 0 then Err(EmptyContainer) else Ok(users[0].rawData.bvp.values)
  }

  /** `get_temp_values`: the temperature samples of the first record. */
  function GetTempValues(users: Recording): (r: Result<seq<real>>)
    ensures r.Ok? <==> |users| > 0
    ensures r.Err? ==> r.error == EmptyContainer
    ensures r.Ok? ==> r.value == Group(users[0].rawData, Temperature).values
  {
    if |users| == 0 then Err(EmptyContainer) else Ok(users[0].rawData.temperature.values)
  }

  /** `get_eda_values`: the electrodermal samples of the first record. */
  function GetEdaValues(users: Recording): (r: Result<seq<real>>)
    ensures r.Ok? <==> |users| > 0
    ensures r.Err? ==> r.error == EmptyContainer
    ensures r.Ok? ==> r.value == Group(users[0].rawData, Eda).values
  {
    if |users| == 0 then Err(EmptyContainer) else Ok(users[0].rawData.eda.values)
  }

  /** The values lookup the upload handler pairs with each channel. */
  function ChannelValues(users: Recording, c: Channel): Result<seq<real>> {
    match c
    case Bvp => GetBvpValues(users)
    case Temperature => GetTempValues(users)
    case Eda => GetEdaValues(users)
  }

  /** `get_sampling_frequency`: the label is dispatched first, and only a
      matching branch reads `users[0]`; with no matching branch the result
      variable is never bound. */
  function GetSamplingFrequency(users: Recording, dataType: string): (r: Result<real>)
    ensures dataType !in {"BVP", "Temperature", "EDA"} ==> r == Err(UnknownLabel)
    ensures dataType in {"BVP", "Temperature", "EDA"} && |users| == 0 ==> r == Err(EmptyContainer)
    ensures r.Ok? <==> dataType in {"BVP", "Temperature", "EDA"} && |users| > 0
  {
    if dataType == "BVP" then
      if |users| == 0 then Err(EmptyContainer) else Ok(users[0].rawData.bvp.samplingFrequency)
    else if dataType == "Temperature" then
      if |users| == 0 then Err(EmptyContainer) else Ok(users[0].rawData.temperature.samplingFrequency)
    else if dataType == "EDA" then
      if |users| == 0 then Err(EmptyContainer) else Ok(users[0].rawData.eda.samplingFrequency)
    else
      Err(UnknownLabel)
  }

  /** Parses a dropdown label; the inverse of `Label`. */
  function ParseLabel(dataType: string): (c: Option<Channel>)
    ensures c.Some? <==> dataType in {"BVP", "Temperature", "EDA"}
    ensures c.Some? ==> Label(c.value) == dataType
  {
    if dataType == "BVP" then Some(Bvp)
    else if dataType == "Temperature" then Some(Temperature)
    else if dataType == "EDA" then Some(Eda)
    else None
  }

  lemma LabelRoundTrip(c: Channel)
    ensures ParseLabel(Label(c)) == Some(c)
  {
  }

  /** Each known label reads exactly its own group's rate from the first
      record; every other label fails, whatever the records are. */
  lemma SamplingFrequencySelectsGroup(users: Recording, dataType: string)
    ensures ParseLabel(dataType).None? ==> GetSamplingFrequency(users, dataType) == Err(UnknownLabel)
    ensures ParseLabel(dataType).Some? && |users| > 0 ==>
      GetSamplingFrequency(users, dataType)
        == Ok(Group(users[0].rawData, ParseLabel(dataType).value).samplingFrequency)
  {
  }

  /** The values and the rate shown for one channel come from the same group
      of the same record, and succeed or fail together. */
  lemma ValuesAndRateAgree(users: Recording, c: Channel)
    ensures ChannelValues(users, c).Ok? <==> GetSamplingFrequency(users, Label(c)).Ok?
    ensures ChannelValues(users, c).Ok? ==>
      ChannelValues(users, c).value == Group(users[0].rawData, c).values &&
      GetSamplingFrequency(users, Label(c)).value == Group(users[0].rawData, c).samplingFrequency
  {
  }

  /** Only the first record is ever read: any records after it may change
      without changing a lookup. */
  lemma FirstRecordOnly(first: Record, rest: Recording, rest': Recording, c: Channel, dataType: string)
    ensures ChannelValues([first] + rest, c) == ChannelValues([first] + rest', c)
    ensures GetSamplingFrequency([first] + rest, dataType) == GetSamplingFrequency([first] + rest', dataType)
  {
  }
}

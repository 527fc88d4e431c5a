/** What a view model's load publishes. Each load is modelled sequentially:
    the states it sets, in order, and the requests it issues, in order. */
module ViewState {
  import opened Gateway

  datatype Load<+S> = Load(states: seq<S>, calls: seq<Request>)

  /** The role string that selects the patient branch everywhere. */
  const PatientRole := "patient"
}

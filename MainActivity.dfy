/** The one piece of the screen that drives the view model: the activity
    creates its view model once and, every time it comes to the foreground,
    starts a location fetch and a heart-rate fetch. Everything it draws is
    not part of this model. */
module Activity {
  import opened States
  import opened Data
  import opened ViewModel

  class MainActivity {
    /** Created with the activity and kept for its whole lifetime. */
    const viewModel: MainViewModel

    /** The activity's view model starts with both streams `Idle`. */
    constructor ()
      ensures fresh(viewModel) && viewModel.Valid()
      ensures viewModel.location == Idle && viewModel.heartRate == Idle
      ensures viewModel.locationWrites == [Idle] && viewModel.heartRateWrites == [Idle]
    {
      viewModel := new MainViewModel();
    }

    /** Coming to the foreground, first or again: each stream gains one
        fetch cycle, `Loading` then its result, starting from whatever it
        last showed. Each fetch is taken to run to completion before the
        next starts. */
    method OnStart(locationOutcome: Outcome<ApiResponse>, heartRateOutcome: Outcome<ApiResponse>)
      requires viewModel.Valid()
      modifies viewModel
      ensures viewModel.Valid()
      ensures viewModel.locationWrites == old(viewModel.locationWrites) + [Loading, viewModel.location]
      ensures viewModel.heartRateWrites == old(viewModel.heartRateWrites) + [Loading, viewModel.heartRate]
      ensures locationOutcome.Ok? ==>
        viewModel.location == Success(LocationOf(locationOutcome.response.result))
      ensures locationOutcome.Fail? ==> viewModel.location == Error(LocationErrorMessage)
      ensures heartRateOutcome.Ok? ==> viewModel.heartRate == Success(heartRateOutcome.response)
      ensures heartRateOutcome.Fail? ==> viewModel.heartRate == Error(HeartRateErrorMessage)
    {
      viewModel.GetLocation(locationOutcome);
      viewModel.GetHeartRateHistory(heartRateOutcome);
    }
  }
}

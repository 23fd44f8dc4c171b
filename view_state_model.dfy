/**
 * The peer page's view state (client/src/js/ViewStateModel.js): four states, any of which may
 * be entered from any other. Every transition dispatches VIEW_STATE_CHANGED, even one to the
 * current state; `changeEvents` counts those dispatches.
 */
module ViewState {
  datatype State = Init | Ready | Land | TakeOff

  class ViewStateModel {
    var state: State
    var changeEvents: nat

    constructor()
      ensures state == Init && changeEvents == 0
    {
      state := Init;
      changeEvents := 0;
    }

    predicate IsInit() reads this { state == Init }
    predicate IsReady() reads this { state == Ready }
    predicate IsLand() reads this { state == Land }
    predicate IsTakeOff() reads this { state == TakeOff }

    /** `#setState(value)`: no guard on the current state. */
    method SetState(s: State)
      modifies this
      ensures state == s && changeEvents == old(changeEvents) + 1
    {
      state := s;
      changeEvents := changeEvents + 1;
    }

    method ToInit()
      modifies this
      ensures IsInit() && !IsReady() && !IsLand() && !IsTakeOff()
      ensures changeEvents == old(changeEvents) + 1
    {
      SetState(Init);
    }

    method ToReady()
      modifies this
      ensures IsReady() && !IsInit() && !IsLand() && !IsTakeOff()
      ensures changeEvents == old(changeEvents) + 1
    {
      SetState(Ready);
    }

    method ToLand()
      modifies this
      ensures IsLand() && !IsInit() && !IsReady() && !IsTakeOff()
      ensures changeEvents == old(changeEvents) + 1
    {
      SetState(Land);
    }

    method ToTakeOff()
      modifies this
      ensures IsTakeOff() && !IsInit() && !IsReady() && !IsLand()
      ensures changeEvents == old(changeEvents) + 1
    {
      SetState(TakeOff);
    }
  }
}

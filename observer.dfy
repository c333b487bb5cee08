/**
 * Observer: a subject keeps a set of subscribed observers and, after each
 * change of its state, sends every one of them "New state: " + its type.
 */
module Observer {

  /** The subject's state. */
  datatype State = State(name: string, typ: string)

  const MessagePrefix: string := "New state: "

  /** The message a subject in the given state sends: the prefix, then the type. */
  function Message(s: State): (msg: string)
    ensures |msg| == |MessagePrefix| + |s.typ|
    ensures msg[..|MessagePrefix|] == MessagePrefix && msg[|MessagePrefix|..] == s.typ
  {
    MessagePrefix + s.typ
  }

  /** `SimpleObserver`: remembers the last message it was sent. */
  class SimpleObserver {
    var messageFromSubject: string

    constructor ()
      ensures messageFromSubject == ""
    {
      messageFromSubject := "";
    }

    /** `update`: only the most recent message is kept. */
    method Update(message: string)
      modifies this
      ensures messageFromSubject == message
    {
      messageFromSubject := message;
    }
  }

  /** `Subject`: `observers` is `_observers`, `state` is `_state`. */
  class Subject {
    var observers: set<SimpleObserver>
    var state: State

    /** The default constructor: no observers, empty state. */
    constructor ()
      ensures observers == {} && state == State("", "")
    {
      observers := {};
      state := State("", "");
    }

    constructor FromState(state: State)
      ensures observers == {} && this.state == state
    {
      observers := {};
      this.state := state;
    }

    /** `attach`: set insertion; returns this subject so that calls chain. */
    method Attach(observer: SimpleObserver) returns (self: Subject)
      modifies this
      ensures observers == old(observers) + {observer}
      ensures state == old(state)
      ensures self == this
    {
      observers := observers + {observer};
      self := this;
    }

    /** `detach`: set removal; an observer that is not attached changes nothing. */
    method Detach(observer: SimpleObserver)
      modifies this
      ensures observers == old(observers) - {observer}
      ensures state == old(state)
    {
      observers := observers - {observer};
    }

    /**
     * `notify`: every attached observer receives the message; no other
     * observer is touched. The order of delivery is not modelled.
     */
    method Notify()
      modifies observers
      ensures forall o :: o in observers ==> o.messageFromSubject == Message(state)
    {
      var message := Message(state);
      var pending := observers;
      while pending != {}
        invariant pending <= observers
        invariant forall o :: o in observers - pending ==> o.messageFromSubject == message
        decreases pending
      {
        var o :| o in pending;
        o.Update(message);
        pending := pending - {o};
      }
    }

    /** `change_state_values`: replaces type and name. */
    method ChangeStateValues(typ: string, name: string)
      modifies this
      ensures state == State(name, typ) && observers == old(observers)
    {
      state := state.(typ := typ, name := name);
    }

    /** `change_subject`: change the state first, then notify. */
    method ChangeSubject(typ: string, name: string)
      modifies this, observers
      ensures state == State(name, typ) && observers == old(observers)
      ensures forall o :: o in observers ==> o.messageFromSubject == "New state: " + typ
    {
      ChangeStateValues(typ, name);
      Notify();
    }
  }

  /** The demonstration: two attached observers both receive the new type. */
  method Client() returns (message1: string, message2: string)
    ensures message1 == "New state: New type" && message2 == "New state: New type"
  {
    var subject := new Subject();
    var observer1 := new SimpleObserver();
    var observer2 := new SimpleObserver();
    var chained := subject.Attach(observer1);
    chained := chained.Attach(observer2);
    subject.ChangeSubject("New type", "Subject");
    message1 := observer1.messageFromSubject;
    message2 := observer2.messageFromSubject;
  }

  /** A detached observer keeps its old message when the subject changes. */
  method DetachedObserverNotUpdated() returns (kept: string, updated: string)
    ensures kept == "" && updated == "New state: T"
  {
    var subject := new Subject();
    var stays := new SimpleObserver();
    var leaves := new SimpleObserver();
    var chained := subject.Attach(stays);
    chained := chained.Attach(leaves);
    subject.Detach(leaves);
    subject.ChangeSubject("T", "N");
    kept := leaves.messageFromSubject;
    updated := stays.messageFromSubject;
  }
}

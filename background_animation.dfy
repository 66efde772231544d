/** The typewriter of the animated background: it reveals a fixed text one
    character per timer tick, and in its infinite form starts over after the end. */
module BackgroundAnimation {

  /** The one timeout the typewriter keeps outstanding, by what it will run. */
  datatype Timer = NoTimer | StartTimer | TypeTimer | RestartTimer

  class Typewriter {
    const text: string
    const infinite: bool
    /** The rendered text (`displayedText`). */
    var displayed: string
    /** The closure's `currentIndex`: how many characters have been typed. */
    var currentIndex: nat
    var timer: Timer

    /** What is shown is always the first `currentIndex` characters of the text. */
    ghost predicate Valid()
      reads this
    {
      currentIndex <= |text| && displayed == text[..currentIndex]
    }

    /** Mounting shows nothing yet and schedules the first start after the delay. */
    constructor (text: string, infinite: bool)
      ensures Valid()
      ensures this.text == text && this.infinite == infinite
      ensures displayed == [] && currentIndex == 0 && timer == StartTimer
    {
      this.text := text;
      this.infinite := infinite;
      displayed := [];
      currentIndex := 0;
      timer := StartTimer;
    }

    /** The first half of `startTyping`: clear the text and the index. */
    method Reset()
      modifies this
      ensures Valid()
      ensures displayed == [] && currentIndex == 0 && timer == old(timer)
    {
      displayed := [];
      currentIndex := 0;
    }

    /** `typeChar`: reveal one more character and schedule the next tick, or at
        the end schedule a restart (infinite) or stop. */
    method TypeChar()
      requires Valid()
      modifies this
      ensures Valid()
      ensures old(currentIndex) < |text| ==>
        currentIndex == old(currentIndex) + 1 && timer == TypeTimer
      ensures old(currentIndex) == |text| ==>
        currentIndex == old(currentIndex) && timer == (if infinite then RestartTimer else NoTimer)
    {
      if currentIndex < |text| {
        displayed := text[..currentIndex + 1];
        currentIndex := currentIndex + 1;
        timer := TypeTimer;
      } else if infinite {
        timer := RestartTimer;
      } else {
        timer := NoTimer;
      }
    }

    /** `startTyping`: reset, then type the first character at once. */
    method StartTyping()
      modifies this
      ensures Valid()
      ensures |text| > 0 ==> currentIndex == 1 && displayed == text[..1] && timer == TypeTimer
      ensures |text| == 0 ==>
        currentIndex == 0 && displayed == [] && timer == (if infinite then RestartTimer else NoTimer)
    {
      Reset();
      TypeChar();
    }

    /** The outstanding timeout fires; with none outstanding nothing happens. */
    method Fire()
      requires Valid()
      modifies this
      ensures Valid()
      ensures old(timer) == NoTimer ==> displayed == old(displayed) && timer == NoTimer
      ensures old(timer) == StartTimer || old(timer) == RestartTimer ==>
        currentIndex == (if |text| > 0 then 1 else 0) &&
        timer == (if |text| > 0 then TypeTimer else if infinite then RestartTimer else NoTimer)
      ensures old(timer) == TypeTimer && old(currentIndex) < |text| ==>
        currentIndex == old(currentIndex) + 1 && timer == TypeTimer
      ensures old(timer) == TypeTimer && old(currentIndex) == |text| ==>
        currentIndex == |text| && timer == (if infinite then RestartTimer else NoTimer)
    {
      match timer
      case NoTimer =>
      case StartTimer => StartTyping();
      case RestartTimer => StartTyping();
      case TypeTimer => TypeChar();
    }

    /** Unmounting clears the outstanding timeout. */
    method Unmount()
      modifies this
      ensures timer == NoTimer && displayed == old(displayed) && currentIndex == old(currentIndex)
    {
      timer := NoTimer;
    }

    /** Lets the timers fire from the first start until no tick is pending: after
        `|text| + 1` firings (one per character, and one that finds the end) the
        whole text is shown, and only an infinite typewriter has a restart pending. */
    method RunToEnd() returns (fires: nat)
      requires Valid() && timer == StartTimer
      modifies this
      ensures Valid()
      ensures displayed == text && currentIndex == |text|
      ensures fires == |text| + 1
      ensures timer == (if infinite then RestartTimer else NoTimer)
    {
      fires := 0;
      while timer == StartTimer || timer == TypeTimer
        invariant Valid()
        invariant timer == StartTimer ==> fires == 0
        invariant timer == TypeTimer ==> 1 <= currentIndex && fires == currentIndex
        invariant timer == NoTimer || timer == RestartTimer ==>
          currentIndex == |text| && fires == |text| + 1 &&
          timer == (if infinite then RestartTimer else NoTimer)
        decreases if timer == StartTimer then |text| + 2
          else if timer == TypeTimer then |text| - currentIndex + 1 else 0
      {
        Fire();
        fires := fires + 1;
      }
    }
  }
}

/** The help page (src_pages/Support.tsx): an accordion of questions with at most one answer open, and a contact
    form whose send refuses a blank message. */
module Support {
  import opened Options
  import opened Text

  datatype Faq = Faq(question: string, answer: string)

  const Faqs: seq<Faq> := [
    Faq("How does the Karma system work?",
        "You earn Karma points for every successful transaction, positive review, and community donation. Higher Karma unlocks special badges and visibility boosts."),
    Faq("Is it safe to meet strangers?",
        "We recommend meeting in public places like coffee shops or police station trading zones. Always check the user's Reputation Score before meeting."),
    Faq("How do I process a return?",
        "Since this is a peer-to-peer marketplace, returns are up to the seller's discretion unless the item was misrepresented. Contact support if you believe you were scammed."),
    Faq("Are donations tax deductible?",
        "KBS is a facilitator. We provide a receipt of the transfer, but please consult your tax professional regarding deductibility of in-kind donations.")
  ]

  const SentAlert := "Message sent to support! We'll get back to you shortly."

  /** `openFaq === index ? null : index` */
  function ToggleFaq(open: Option<nat>, index: nat): (r: Option<nat>)
    ensures r.None? <==> open == Some(index)
    ensures r.Some? ==> r == Some(index)
  {
    if open == Some(index) then None else Some(index)
  }

  /** Two clicks on the same question leave it open if it was open and closed otherwise; any other question that
      was open is closed. */
  lemma ToggleTwice(open: Option<nat>, index: nat)
    ensures ToggleFaq(ToggleFaq(open, index), index) == if open == Some(index) then Some(index) else None
  {
  }

  /** The indices whose answer is drawn among `count` questions. */
  function Shown(open: Option<nat>, count: nat): (r: set<nat>)
    ensures forall i :: i in r <==> i < count && open == Some(i)
  {
    if open.Some? && open.value < count then {open.value} else {}
  }

  /** At most one answer is on screen, and after a click exactly the clicked one or none. */
  lemma AtMostOneAnswer(open: Option<nat>, index: nat, count: nat)
    requires index < count
    ensures |Shown(open, count)| <= 1
    ensures Shown(ToggleFaq(open, index), count) == if open == Some(index) then {} else {index}
  {
  }

  class SupportPage {
    var openFaq: Option<nat>
    var message: string
    var alerts: seq<string>

    /** The first question starts open. */
    constructor()
      ensures openFaq == Some(0) && message == "" && alerts == []
    {
      openFaq := Some(0);
      message := "";
      alerts := [];
    }

    /** A click on the question at `index`. */
    method ClickFaq(index: nat)
      requires index < |Faqs|
      modifies this`openFaq
      ensures openFaq == ToggleFaq(old(openFaq), index)
      ensures Shown(openFaq, |Faqs|) == if old(openFaq) == Some(index) then {} else {index}
    {
      AtMostOneAnswer(openFaq, index, |Faqs|);
      openFaq := ToggleFaq(openFaq, index);
    }

    /** The textarea's onChange. */
    method Type(text: string)
      modifies this`message
      ensures message == text
    {
      message := text;
    }

    /** `handleSendMessage`: a blank message changes nothing; otherwise the confirmation is shown and the text
        is cleared. */
    method Send()
      modifies this`message, this`alerts
      ensures IsBlank(old(message)) ==> message == old(message) && alerts == old(alerts)
      ensures !IsBlank(old(message)) ==> message == "" && alerts == old(alerts) + [SentAlert]
    {
      if IsBlank(message) {
        return;
      }
      alerts := alerts + [SentAlert];
      message := "";
    }
  }
}

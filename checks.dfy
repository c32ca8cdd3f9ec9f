/** The `Admin` check guarding the privileged commands. */
module Checks {
  import opened Common
  import opened Store

  const NotAdminText := "**Error:** You are not an admin!"

  /** The check's verdict, and the message it says in the invoking channel. */
  datatype Verdict = Verdict(passed: bool, notice: Option<string>)

  /** One SISMEMBER on `admins`. Members pass silently; everyone else is told
      they are not an admin; a store error fails the check without a word. */
  function AdminCheck(caller: U64, st: State, fails: bool): (v: Verdict)
    ensures v.passed <==> !fails && caller in st.Members(Admins)
    ensures v.passed ==> v.notice == None
    ensures fails ==> v.notice == None
    ensures !fails && caller !in st.Members(Admins) ==> v.notice == Some(NotAdminText)
  {
    if fails then Verdict(false, None)
    else if caller in st.Members(Admins) then Verdict(true, None)
    else Verdict(false, Some(NotAdminText))
  }

  /** The check depends on `admins` alone. */
  lemma AdminCheckReadsOnlyAdmins(caller: U64, st1: State, st2: State, fails: bool)
    requires st1.Members(Admins) == st2.Members(Admins)
    ensures AdminCheck(caller, st1, fails) == AdminCheck(caller, st2, fails)
  {
  }
}

/**
 * The fixed texts of the emergency helpline menu: the menu prompt that lists
 * the five options, one resource message per option, and the reply to any
 * other choice. The menu is written in the same pieces as the handler's text;
 * its first line, the prompt, is split further at word boundaries.
 */
module HelplineText {

  /** The first line of the menu, asking the user to choose. */
  const HelplinePrompt :=
    "What type of" + " support do" + " you need?" + " Please select" + " one option" + " from below:" + "\n"

  const HelplineMenu :=
    HelplinePrompt
    + "1. General Support\n"
    + "2. Suicide Prevention\n"
    + "3. Young People\n"
    + "4. LGBTQ+ Support\n"
    + "5. Urgent Help"

  const GeneralSupportMessage :=
    "**General Mental Health Support**:\n- Samaritans: Call 116 123 (24/7)\n- NHS 111: Call 111 (24/7)"
  const SuicidePreventionMessage :=
    "**Suicide Prevention**:\n- National Suicide Prevention Helpline: Call 0800 689 5652\n- Papyrus HOPELINEUK: Call 0800 068 4141"
  const YoungPeopleMessage :=
    "**Support for Young People**:\n- Childline: Call 0800 1111 (24/7)\n- Shout Crisis Text Line: Text 'YM' to 85258"
  const LgbtqSupportMessage :=
    "**LGBTQ+ Support**:\n- Switchboard: Call 0300 330 0630 (10am-10pm)\n- Text 'SHOUT' to 85258 (24/7)"
  const UrgentHelpMessage :=
    "**Urgent Help**:\n- Call 999 for immediate danger\n- Visit A&E for emergency mental health support"
  const NotUnderstoodMessage :=
    "I didn\U{2019}t understand that. Please reply with 1, 2, 3, 4, or 5."
}

/** The greeting of the page header (src/components/layout/Header.tsx). */
module Headers {

  /** `getGreeting` for the clock's hour of the day. */
  function Greeting(hour: int): string {
    if hour < 12 then "Bom dia"
    else if hour < 18 then "Boa tarde"
    else "Boa noite"
  }

  /**
   * Morning (before 12) is "Bom dia", afternoon (12 to 17) "Boa tarde", evening (18 on)
   * "Boa noite", each greeting belonging to its period only.
   */
  lemma GreetingByPeriod(hour: int)
    ensures Greeting(hour) == "Bom dia" <==> hour < 12
    ensures Greeting(hour) == "Boa tarde" <==> 12 <= hour < 18
    ensures Greeting(hour) == "Boa noite" <==> 18 <= hour
  {
    assert "Bom dia"[2] != "Boa tarde"[2] && "Bom dia"[2] != "Boa noite"[2];
    assert "Boa tarde"[4] != "Boa noite"[4];
  }

  /** Every hour of the day gets one of the three greetings. */
  lemma EveryHourGreeted(hour: int)
    requires 0 <= hour < 24
    ensures Greeting(hour) in {"Bom dia", "Boa tarde", "Boa noite"}
  {
  }
}

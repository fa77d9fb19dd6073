/**
 * Worked examples of `toSnakeCase`, evaluated pass by pass. Each `...Pass1` and `...Pass2`
 * lemma walks one scan from the end of its input towards the start.
 */
module SnakeCaseExamples {
  import opened Strings
  import opened SnakeCase

  /** Pass 1 consumes `xAb` and so cannot see the overlapping match `bCd`; pass 2 catches it. */
  lemma OverlapPass1()
    ensures MatchFirstCap("xAbCd") == "x_AbCd"
  {
    assert LowerRunEnd("xAbCd", 2) == 3;
  }

  lemma OverlapPass2()
    ensures MatchAllCap("x_AbCd") == "x_Ab_Cd"
  {
    assert MatchAllCap("bCd") == "b_Cd";
    assert MatchAllCap("AbCd") == "Ab_Cd";
    assert MatchAllCap("_AbCd") == "_Ab_Cd";
  }

  lemma UserIdPass1()
    ensures MatchFirstCap("userID") == "userID"
  {
    assert MatchFirstCap("rID") == "rID";
    assert MatchFirstCap("erID") == "erID";
    assert MatchFirstCap("serID") == "serID";
  }

  lemma UserIdPass2()
    ensures MatchAllCap("userID") == "user_ID"
  {
    assert MatchAllCap("rID") == "r_ID";
    assert MatchAllCap("erID") == "er_ID";
    assert MatchAllCap("serID") == "ser_ID";
  }

  /** The overlapping match of pass 1 is left to pass 2. */
  lemma OverlapExample()
    ensures ToSnakeCase("xAbCd") == "x_ab_cd"
  {
    OverlapPass1();
    OverlapPass2();
  }

  /** A trailing acronym is separated by pass 2 alone. */
  lemma UserIdExample()
    ensures ToSnakeCase("userID") == "user_id"
  {
    UserIdPass1();
    UserIdPass2();
  }

  lemma MyServicePass1()
    ensures MatchFirstCap("MyService") == "My_Service"
  {
    assert LowerRunEnd("yService", 2) == 8;
    assert MatchFirstCap("yService") == "y_Service";
  }

  lemma MyServicePass2()
    ensures MatchAllCap("My_Service") == "My_Service"
  {
    var s := "My_Service";
    forall i | 0 <= i < |s| - 1 ensures !CamelBoundaryAt(s, i) {
    }
    MatchAllCapKeepsUnbroken(s);
  }

  lemma MyServiceExample()
    ensures ToSnakeCase("MyService") == "my_service"
  {
    MyServicePass1();
    MyServicePass2();
    LowerMyService();
  }

  lemma LowerMyService()
    ensures ToLower("My_Service") == "my_service"
  {
    var s, t := "My_Service", "my_service";
    var r := ToLower(s);
    forall i | 0 <= i < |t| ensures r[i] == t[i] {
    }
  }

  /**
   * An acronym is never split letter by letter: an underscore between two upper-case
   * letters opens no word, so neither pass produces one, whatever the name.
   */
  lemma AcronymKeptWhole(s: string)
    requires '_' !in s
    ensures MatchAllCap(MatchFirstCap(s)) != "H_T_T_P_Server"
    ensures MatchAllCap(s) != "a_B_C"
  {
    UnderscoresOnlyAtBoundaries(s);
    assert !OpensWord("H_T_T_P_Server", 1);
    MatchAllCapUnderscores(s);
    assert !OpensWord("a_B_C", 3);
  }
}

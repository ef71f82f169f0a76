/** Construction of a Swarm: the mode check and the choice of client. */
module Config {
  import opened Types

  /** Where the client comes from. The OpenAI client constructors themselves
      are I/O and are not modelled. */
  datatype ClientSource =
    | Supplied                       // the caller passed a client
    | LocalOllama                    // OpenAI client on the local ollama endpoint
    | GeminiEndpoint(apiKey: string) // OpenAI client on the Gemini endpoint
    | OpenAIDefault                  // OpenAI() with its default configuration
    | NoClient                       // an unrecognised mode and no client: self.client stays None

  datatype Swarm = Swarm(mode: Mode, client: ClientSource)

  /** `Swarm(client, mode, GEMINI_API_KEY)`. A mode is required; Gemini
      without a client also needs an API key; any other non-empty mode is
      accepted, with no client when none is given. */
  function NewSwarm(mode: string, clientSupplied: bool, geminiApiKey: string): (r: Outcome<Swarm>)
    ensures r.Err? <==> mode == "" || (mode == "gemini" && !clientSupplied && geminiApiKey == "")
    ensures mode == "" ==> r == Err(ValueError(ModeRequired))
    ensures r.Err? && mode != "" ==> r == Err(ValueError(GeminiKeyRequired))
    ensures r.Ok? ==> r.value.mode.name == mode
    ensures r.Ok? ==> (r.value.client.Supplied? <==> clientSupplied)
    ensures r.Ok? ==> (r.value.client.NoClient? <==>
                         !clientSupplied && mode != "openai" && mode != "ollama" && mode != "gemini")
    // without a client, the mode picks the endpoint
    ensures r.Ok? && !clientSupplied && mode == "ollama" ==> r.value.client == LocalOllama
    ensures r.Ok? && !clientSupplied && mode == "gemini" ==> r.value.client == GeminiEndpoint(geminiApiKey)
    ensures r.Ok? && !clientSupplied && mode == "openai" ==> r.value.client == OpenAIDefault
  {
    if mode == "" then Err(ValueError(ModeRequired))
    else if clientSupplied then Ok(Swarm(Mode(mode), Supplied))
    else if mode == "ollama" then Ok(Swarm(Mode(mode), LocalOllama))
    else if mode == "gemini" then
      if geminiApiKey != "" then Ok(Swarm(Mode(mode), GeminiEndpoint(geminiApiKey)))
      else Err(ValueError(GeminiKeyRequired))
    else if mode == "openai" then Ok(Swarm(Mode(mode), OpenAIDefault))
    else Ok(Swarm(Mode(mode), NoClient))
  }

  lemma {:induction false} AbsentFirstCharNotSubstring(s: string, t: string)
    requires s != [] && s[0] !in t
    ensures !IsSubstring(s, t)
    decreases |t|
  {
    if t != [] {
      assert forall c :: c in t[1..] ==> c in t;
      AbsentFirstCharNotSubstring(s, t[1..]);
    }
  }

  /** The three mode tests: the tool-role modes never take a Gemini branch,
      exact "gemini" takes the Gemini branches, and so does any piece of the
      word "gemini", such as "gem", which the exact test rejects. */
  lemma ModeTests(m: Mode)
    ensures m.ToolRole() ==> !m.GeminiLike()
    ensures m.Gemini() ==> m.GeminiLike() && !m.ToolRole()
    ensures Mode("gem").GeminiLike() && !Mode("gem").Gemini() && !Mode("gem").ToolRole()
  {
    if m.ToolRole() {
      AbsentFirstCharNotSubstring(m.name, "gemini");
    }
  }
}

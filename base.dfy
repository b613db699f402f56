/** The shared agent base (src/agents/base.py): the tagged log line and the
    chat client that is built once from the configuration and reused. */
module Base {
  import opened Text

  /** The chat client an agent talks to; only its settings are modelled. */
  datatype ChatClient =
    | ChatOpenAI(model: string, temperature: real, maxTokens: int)
    | ChatAnthropic(model: string, temperature: real, maxTokens: int)

  /** The provider choice of the `llm` property: "openai" selects the OpenAI
      client, every other provider the Anthropic one; the model settings are
      passed through unchanged. */
  function ClientFor(provider: string, model: string, temperature: real, maxTokens: int): (c: ChatClient)
    ensures c.ChatOpenAI? <==> provider == "openai"
    ensures c.model == model && c.temperature == temperature && c.maxTokens == maxTokens
  {
    if provider == "openai" then ChatOpenAI(model, temperature, maxTokens)
    else ChatAnthropic(model, temperature, maxTokens)
  }

  /** `BaseAgent.log`: the message tagged with the agent's name. */
  function Tag(name: string, message: string): (r: string)
    ensures |r| == |name| + |message| + 3
    ensures r[0] == '[' && r[|name| + 1] == ']' && r[|name| + 2] == ' '
    ensures r[1..|name| + 1] == name && r[|name| + 3..] == message
  {
    "[" + name + "] " + message
  }

  class BaseAgent {
    const name: string
    var client: Option<ChatClient>
    /** How many clients this agent has built. */
    ghost var built: nat

    ghost predicate Valid()
      reads this
    {
      built <= 1 && (client.None? <==> built == 0)
    }

    constructor (name: string)
      ensures this.name == name && client == None && Valid()
    {
      this.name := name;
      client := None;
      built := 0;
    }

    function Log(message: string): (r: string)
      ensures r == Tag(name, message)
    {
      Tag(name, message)
    }

    /** The `llm` property: the first access builds the client from the
        current settings, every later access returns that same client even
        when the settings have changed since. */
    method Llm(provider: string, model: string, temperature: real, maxTokens: int) returns (c: ChatClient)
      requires Valid()
      modifies this
      ensures Valid() && built == 1 && client == Some(c)
      ensures old(client).Some? ==> c == old(client).value
      ensures old(client).None? ==> c == ClientFor(provider, model, temperature, maxTokens)
    {
      if client.None? {
        client := Some(ClientFor(provider, model, temperature, maxTokens));
        built := built + 1;
      }
      c := client.value;
    }
  }
}

/** The two tool calls `run_agent` in main.py makes to the server, reduced
    to how their arguments bind to the tools' parameters. The server binds
    a call's arguments by parameter name; a required parameter missing from
    the arguments makes the call fail before the tool runs. */
module Agent {
  import opened Wrappers
  import opened KnowledgeBase

  /** The name of `query_rag`'s only parameter. */
  const QueryParam: string := "question"

  /** The fixed question the agent asks the index. */
  const RankingQuestion: string :=
    "Which papers or research present significant technological innovations, performance improvements, or recent advances in AI, machine learning, or computing?"

  /** A `call_tool("query_rag", arguments)`: the tool's answer, or the name
      of the required parameter the arguments do not supply. */
  function CallQueryRag(args: map<string, string>, index: Index, rank: Ranker): (r: Result<string, string>)
    requires QueryParam in args ==> RanksIndex(index, args[QueryParam], rank)
    ensures QueryParam in args <==> r.Success?
    ensures r.Success? ==> r.value == QueryRag(index, args[QueryParam], rank)
    ensures r.Failure? ==> r.error == QueryParam
  {
    if QueryParam in args then Success(QueryRag(index, args[QueryParam], rank)) else Failure(QueryParam)
  }

  /** The arguments as main.py writes them: keyed "pergunta". */
  function AgentQueryArgsAsWritten(): map<string, string> {
    map["pergunta" := RankingQuestion]
  }

  /** As written, the query call never reaches the index: whatever the
      index holds, the server reports the missing "question" parameter. */
  lemma AgentQueryAsWrittenFails(index: Index, rank: Ranker)
    ensures CallQueryRag(AgentQueryArgsAsWritten(), index, rank) == Failure(QueryParam)
  {
    assert QueryParam != "pergunta";
  }

  /** The arguments keyed by the parameter's name. */
  function AgentQueryArgs(): map<string, string> {
    map[QueryParam := RankingQuestion]
  }

  /** Keyed correctly, the call runs `query_rag` on the agent's question:
      the empty-index sentinel before any ingestion, the context afterwards. */
  lemma AgentQueryReachesIndex(index: Index, rank: Ranker)
    requires RanksIndex(index, RankingQuestion, rank)
    ensures CallQueryRag(AgentQueryArgs(), index, rank) == Success(QueryRag(index, RankingQuestion, rank))
    ensures index.None? ==> CallQueryRag(AgentQueryArgs(), index, rank) == Success(EmptyKnowledgeBaseMessage)
  {
  }
}

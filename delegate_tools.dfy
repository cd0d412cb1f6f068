/**
 * The ten argumentless `transfer_to_*` delegate tools
 * (banking_chatbot/app/tools/delegate_tools.py): each returns the topic type of one domain.
 */
module DelegateTools {
  import opened Wrappers

  datatype DelegateTool =
    | TransferToRetailBanking
    | TransferToCorporateBanking
    | TransferToInvestmentBanking
    | TransferToWealthManagement
    | TransferToRiskManagement
    | TransferToInsurance
    | TransferToItOps
    | TransferToPayments
    | TransferToCapitalTreasury
    | TransferToAnalytics
  {
    /** The Python function name, which is the tool's registered name. */
    function Name(): string {
      match this
      case TransferToRetailBanking => "transfer_to_retail_banking"
      case TransferToCorporateBanking => "transfer_to_corporate_banking"
      case TransferToInvestmentBanking => "transfer_to_investment_banking"
      case TransferToWealthManagement => "transfer_to_wealth_management"
      case TransferToRiskManagement => "transfer_to_risk_management"
      case TransferToInsurance => "transfer_to_insurance"
      case TransferToItOps => "transfer_to_it_ops"
      case TransferToPayments => "transfer_to_payments"
      case TransferToCapitalTreasury => "transfer_to_capital_treasury"
      case TransferToAnalytics => "transfer_to_analytics"
    }

    /** Calling the tool: the topic type it hands the conversation to. */
    function Run(): string {
      match this
      case TransferToRetailBanking => "RetailBanking"
      case TransferToCorporateBanking => "CorporateBanking"
      case TransferToInvestmentBanking => "InvestmentBanking"
      case TransferToWealthManagement => "WealthManagement"
      case TransferToRiskManagement => "RiskManagement"
      case TransferToInsurance => "Insurance"
      case TransferToItOps => "ITOps"
      case TransferToPayments => "Payments"
      case TransferToCapitalTreasury => "CapitalTreasury"
      case TransferToAnalytics => "Analytics"
    }
  }

  /** The delegate-tool list the runtime hands to the classifier, in its order. */
  const AllTools: seq<DelegateTool> := [
    TransferToRetailBanking, TransferToCorporateBanking, TransferToInvestmentBanking,
    TransferToWealthManagement, TransferToRiskManagement, TransferToInsurance,
    TransferToItOps, TransferToPayments, TransferToCapitalTreasury, TransferToAnalytics
  ]

  /** The names of the tools in a registered set (the keys of `_delegate_tools`). */
  function Names(tools: set<DelegateTool>): set<string> {
    set t | t in tools :: t.Name()
  }

  /** Looking a tool up by its registered name. */
  function ToolNamed(name: string): (r: Option<DelegateTool>)
    ensures r.Some? ==> r.value.Name() == name
  {
    if name == "transfer_to_retail_banking" then Some(TransferToRetailBanking)
    else if name == "transfer_to_corporate_banking" then Some(TransferToCorporateBanking)
    else if name == "transfer_to_investment_banking" then Some(TransferToInvestmentBanking)
    else if name == "transfer_to_wealth_management" then Some(TransferToWealthManagement)
    else if name == "transfer_to_risk_management" then Some(TransferToRiskManagement)
    else if name == "transfer_to_insurance" then Some(TransferToInsurance)
    else if name == "transfer_to_it_ops" then Some(TransferToItOps)
    else if name == "transfer_to_payments" then Some(TransferToPayments)
    else if name == "transfer_to_capital_treasury" then Some(TransferToCapitalTreasury)
    else if name == "transfer_to_analytics" then Some(TransferToAnalytics)
    else None
  }

  /** Every tool is found again under its own name. */
  lemma ToolNamedInvertsName(t: DelegateTool)
    ensures ToolNamed(t.Name()) == Some(t)
  {
    var n := t.Name();
    assert |n| >= 18;
    assert n[12] == 'r' ==> |n| == 26 || |n| == 27;
  }

  /** The list holds every tool, once. */
  lemma AllToolsComplete(t: DelegateTool)
    ensures t in AllTools
  {
  }

  /** Different tools have different names and return different topics. */
  lemma ToolsDistinct(a: DelegateTool, b: DelegateTool)
    requires a != b
    ensures a.Name() != b.Name()
    ensures a.Run() != b.Run()
  {
  }
}

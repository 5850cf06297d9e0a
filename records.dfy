/** One transaction row of the customer table, every cell as the loader leaves
    it: a string (only `Customer_ID` has been stripped at load time). */
module Records {

  datatype Row = Row(
    customerId: string,         // Customer_ID
    customerName: string,       // Customer_Name
    industry: string,           // Industry
    annualRevenue: string,      // Annual_Revenue(USD)
    employees: string,          // Number_of_Employees
    priorityRating: string,     // Customer_Priority_Rating
    accountType: string,        // Account_Type
    location: string,           // Location
    currentProducts: string,    // Current_Products
    product: string,            // Product
    totalPrice: string,         // Total_Price(USD)
    productUsage: string,       // Product_Usage(%)
    lastActivity: string,       // Last_Activity_Date
    opportunityStage: string,   // Opportunity_Stage
    opportunityAmount: string,  // Opportunity_Amount(USD)
    competitors: string         // Competitors
  )

  /** The `Product` column of some rows. */
  function Products(rows: seq<Row>): (ps: seq<string>)
    ensures |ps| == |rows|
    ensures forall i :: 0 <= i < |rows| ==> ps[i] == rows[i].product
  {
    seq(|rows|, i requires 0 <= i < |rows| => rows[i].product)
  }

  /** The `Customer_ID` column of some rows, as loaded. */
  function CustomerIds(rows: seq<Row>): (ids: seq<string>)
    ensures |ids| == |rows|
    ensures forall i :: 0 <= i < |rows| ==> ids[i] == rows[i].customerId
  {
    seq(|rows|, i requires 0 <= i < |rows| => rows[i].customerId)
  }

  lemma ProductsAppend(a: seq<Row>, b: seq<Row>)
    ensures Products(a + b) == Products(a) + Products(b)
  {
  }
}

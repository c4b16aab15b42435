/**
 * The offline stand-in for the generation service: it lower-cases the
 * request and picks one of three canned macros by keyword, in a fixed order
 * of precedence, or a Hello World macro when no keyword occurs. The 2000 ms
 * artificial delay is not modelled.
 */
module VbaGenerator {
  import opened Types
  import Text

  datatype Template = SortTemplate | AverageTemplate | UserFormTemplate | HelloWorldTemplate

  /**
   * The objects the mock returns. The three canned templates carry their
   * macro under `code`; only the Hello World default carries it under
   * `vbaCode`, the name the declared return type promises.
   */
  datatype MockReply = TemplateReply(code: string, response: string) | DefaultReply(vbaCode: string, response: string)

  const SortKeywords := ["sort", "order"]
  const AverageKeywords := ["average", "mean", "calculate"]
  const UserFormKeywords := ["form", "input", "customer"]

  const SortCode := @"Sub SortData()
    ' Sort data in a column
    Dim ws As Worksheet
    Set ws = ActiveSheet
    
    ' Define the range to sort
    Dim sortRange As Range
    Set sortRange = ws.Range(""A1:A"" & ws.Cells(ws.Rows.Count, ""A"").End(xlUp).Row)
    
    ' Sort the range
    sortRange.Sort Key1:=sortRange, Order1:=xlAscending, Header:=xlYes
    
    MsgBox ""Data has been sorted successfully!"", vbInformation
End Sub"
  const SortResponse := @"I've created a macro that will sort data in column A. The macro assumes your data has a header row. To use this macro, simply run it and it will sort the data in ascending order. You can modify the code to sort by different columns or in descending order if needed."
  const AverageCode := @"Function CalculateAverage() As Double
    ' Function to calculate average of cells B2:B10
    Dim rng As Range
    Set rng = Range(""B2:B10"")
    
    ' Calculate average
    CalculateAverage = Application.WorksheetFunction.Average(rng)
End Function

Sub ShowAverageResult()
    ' Show the result in a message box
    Dim avg As Double
    avg = CalculateAverage()
    
    MsgBox ""The average of B2:B10 is: "" & avg, vbInformation, ""Average Result""
End Sub"
  const AverageResponse := @"I've created a VBA function that calculates the average of cells B2:B10. The function returns the average as a Double value. I've also included a subroutine that shows the result in a message box. You can call the function directly in a cell formula or run the ShowAverageResult subroutine to see the result."
  const UserFormCode := @"' UserForm code
' 1. Insert a UserForm from the Developer tab
' 2. Name it frmCustomerData
' 3. Add the following controls:
'    - 3 Labels: lblName, lblEmail, lblPhone
'    - 3 TextBoxes: txtName, txtEmail, txtPhone
'    - 2 CommandButtons: cmdSave, cmdCancel

' Code for the UserForm
Private Sub UserForm_Initialize()
    ' Set up the form
    Me.Caption = ""Customer Data Form""
    
    ' Labels
    lblName.Caption = ""Customer Name:""
    lblEmail.Caption = ""Email Address:""
    lblPhone.Caption = ""Phone Number:""
    
    ' Buttons
    cmdSave.Caption = ""Save""
    cmdCancel.Caption = ""Cancel""
End Sub

Private Sub cmdSave_Click()
    ' Validate input
    If txtName.Text = """" Then
        MsgBox ""Please enter a customer name."", vbExclamation
        txtName.SetFocus
        Exit Sub
    End If
    
    ' Get the next empty row
    Dim ws As Worksheet
    Dim nextRow As Long
    
    Set ws = ThisWorkbook.Sheets(""CustomerData"")
    nextRow = ws.Cells(ws.Rows.Count, ""A"").End(xlUp).Row + 1
    
    ' Save data to worksheet
    ws.Cells(nextRow, ""A"").Value = txtName.Text
    ws.Cells(nextRow, ""B"").Value = txtEmail.Text
    ws.Cells(nextRow, ""C"").Value = txtPhone.Text
    
    MsgBox ""Customer data saved successfully!"", vbInformation
    
    ' Clear fields for next entry
    txtName.Text = """"
    txtEmail.Text = """"
    txtPhone.Text = """"
    txtName.SetFocus
End Sub

Private Sub cmdCancel_Click()
    Unload Me
End Sub

' Module code to show the form
Sub ShowCustomerForm()
    ' Check if CustomerData sheet exists
    Dim ws As Worksheet
    Dim sheetExists As Boolean
    
    sheetExists = False
    For Each ws In ThisWorkbook.Sheets
        If ws.Name = ""CustomerData"" Then
            sheetExists = True
            Exit For
        End If
    Next ws
    
    ' Create sheet if it doesn't exist
    If Not sheetExists Then
        ThisWorkbook.Sheets.Add.Name = ""CustomerData""
        With ThisWorkbook.Sheets(""CustomerData"")
            .Cells(1, ""A"").Value = ""Name""
            .Cells(1, ""B"").Value = ""Email""
            .Cells(1, ""C"").Value = ""Phone""
            .Range(""A1:C1"").Font.Bold = True
        End With
    End If
    
    ' Show the form
    frmCustomerData.Show
End Sub"
  const UserFormResponse := @"I've created a complete VBA solution for a customer data entry form. This includes a UserForm with fields for name, email, and phone number, plus save and cancel buttons. The code validates that the name is provided, creates a 'CustomerData' worksheet if it doesn't exist, and saves the information to the next available row. To implement this, you'll need to create a UserForm and add the controls as described in the comments, then paste this code."
  const HelloWorldCode := @"Sub HelloWorld()
    MsgBox ""Hello, World!"", vbInformation, ""Excel VBA""
End Sub"
  const HelloWorldResponse := @"I've created a simple 'Hello World' VBA macro as a starting point. Could you provide more details about what specific Excel task you need help with? For example, do you need data manipulation, forms, automation of specific tasks, etc.?"

  /** `ks.some(k => input.includes(k))`, evaluated left to right as the source's `||` chains are. */
  predicate MentionsAny(input: string, ks: seq<string>)
  {
    exists k :: 0 <= k < |ks| && Text.Contains(input, ks[k])
  }

  /** The keyword dispatch on the lower-cased request. */
  function Classify(userInput: string): Template
  {
    var input := Text.ToLower(userInput);
    if MentionsAny(input, SortKeywords) then SortTemplate
    else if MentionsAny(input, AverageKeywords) then AverageTemplate
    else if MentionsAny(input, UserFormKeywords) then UserFormTemplate
    else HelloWorldTemplate
  }

  /**
   * `generateVbaCode(userInput, previousMessages)`: the canned object of the
   * chosen template. The previous messages are accepted and never read.
   */
  function GenerateVbaCode(userInput: string, previousMessages: seq<Message>): (r: MockReply)
    ensures r == ReplyFor(Classify(userInput))
    ensures VbaCodeProperty(r).Some? <==> Classify(userInput) == HelloWorldTemplate
  {
    ReplyFor(Classify(userInput))
  }

  /** The canned object of each template (`VBA_TEMPLATES.sort`, ... and the inline default). */
  function ReplyFor(t: Template): MockReply
  {
    match t
    case SortTemplate => TemplateReply(SortCode, SortResponse)
    case AverageTemplate => TemplateReply(AverageCode, AverageResponse)
    case UserFormTemplate => TemplateReply(UserFormCode, UserFormResponse)
    case HelloWorldTemplate => DefaultReply(HelloWorldCode, HelloWorldResponse)
  }

  /** What a caller reading `result.vbaCode` gets: `undefined` for the three templates. */
  function VbaCodeProperty(r: MockReply): Option<string>
  {
    match r
    case TemplateReply(_, _) => None
    case DefaultReply(code, _) => Some(code)
  }

  /** "sort" or "order" anywhere in the lower-cased request selects the sort macro, whatever other keywords occur. */
  lemma SortKeywordWins(userInput: string, previousMessages: seq<Message>)
    requires Text.Contains(Text.ToLower(userInput), "sort") || Text.Contains(Text.ToLower(userInput), "order")
    ensures GenerateVbaCode(userInput, previousMessages) == ReplyFor(SortTemplate)
  {
    var input := Text.ToLower(userInput);
    if Text.Contains(input, "sort") {
      assert Text.Contains(input, SortKeywords[0]);
    } else {
      assert Text.Contains(input, SortKeywords[1]);
    }
    assert MentionsAny(input, SortKeywords);
  }

  /** Without a sort keyword, "average", "mean" or "calculate" selects the average macro. */
  lemma AverageKeywordNext(userInput: string, previousMessages: seq<Message>)
    requires !MentionsAny(Text.ToLower(userInput), SortKeywords)
    requires || Text.Contains(Text.ToLower(userInput), "average")
             || Text.Contains(Text.ToLower(userInput), "mean")
             || Text.Contains(Text.ToLower(userInput), "calculate")
    ensures GenerateVbaCode(userInput, previousMessages) == ReplyFor(AverageTemplate)
  {
    var input := Text.ToLower(userInput);
    if Text.Contains(input, "average") {
      assert Text.Contains(input, AverageKeywords[0]);
    } else if Text.Contains(input, "mean") {
      assert Text.Contains(input, AverageKeywords[1]);
    } else {
      assert Text.Contains(input, AverageKeywords[2]);
    }
    assert MentionsAny(input, AverageKeywords);
  }

  /** Without a sort or average keyword, "form", "input" or "customer" selects the user-form macro. */
  lemma UserFormKeywordLast(userInput: string, previousMessages: seq<Message>)
    requires !MentionsAny(Text.ToLower(userInput), SortKeywords)
    requires !MentionsAny(Text.ToLower(userInput), AverageKeywords)
    requires || Text.Contains(Text.ToLower(userInput), "form")
             || Text.Contains(Text.ToLower(userInput), "input")
             || Text.Contains(Text.ToLower(userInput), "customer")
    ensures GenerateVbaCode(userInput, previousMessages) == ReplyFor(UserFormTemplate)
  {
    var input := Text.ToLower(userInput);
    if Text.Contains(input, "form") {
      assert Text.Contains(input, UserFormKeywords[0]);
    } else if Text.Contains(input, "input") {
      assert Text.Contains(input, UserFormKeywords[1]);
    } else {
      assert Text.Contains(input, UserFormKeywords[2]);
    }
    assert MentionsAny(input, UserFormKeywords);
  }

  /**
   * The Hello World default is returned exactly when none of the eight
   * keywords occurs, and it is the only result that carries its macro under
   * `vbaCode`.
   */
  lemma DefaultExactlyWithoutKeywords(userInput: string, previousMessages: seq<Message>)
    ensures var r := GenerateVbaCode(userInput, previousMessages);
      && (r == ReplyFor(HelloWorldTemplate) <==>
           forall w :: w in SortKeywords + AverageKeywords + UserFormKeywords ==> !Text.Contains(Text.ToLower(userInput), w))
      && (VbaCodeProperty(r).Some? <==> r.DefaultReply?)
  {
  }

  /** Matching ignores case: lower-casing the request first changes nothing. */
  lemma MatchingIgnoresCase(userInput: string, previousMessages: seq<Message>)
    ensures GenerateVbaCode(Text.ToLower(userInput), previousMessages) == GenerateVbaCode(userInput, previousMessages)
  {
    Text.ToLowerIdempotent(userInput);
  }

  /** A sort keyword written in any letter case ("SORT", "Order") selects the sort macro. */
  lemma SortKeywordInAnyCase(userInput: string, w: string, previousMessages: seq<Message>)
    requires Text.Contains(userInput, w)
    requires Text.ToLower(w) in SortKeywords
    ensures GenerateVbaCode(userInput, previousMessages) == ReplyFor(SortTemplate)
  {
    Text.ContainsToLower(userInput, w);
  }

  /** The previous messages never affect the result. */
  lemma PreviousMessagesIgnored(userInput: string, p1: seq<Message>, p2: seq<Message>)
    ensures GenerateVbaCode(userInput, p1) == GenerateVbaCode(userInput, p2)
  {
  }
}

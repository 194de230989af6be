TestResult.DisplayName,TestResult.Outcome,TestResult.Duration,TestResult.ResourceCount,RandomSeed
JsValues.IntToStrRoundTrip (correctness),Passed,00:00:00.1592371,120921,0
JsValues.Get (well-formedness),Passed,00:00:00.1333656,40173,0
JsValues.Digit (well-formedness),Passed,00:00:00.1280293,11627,0
JsValues.NatToStrDigits (correctness),Passed,00:00:00.1180849,107320,0
JsValues.NumberFieldOfInt (correctness),Passed,00:00:00.0591965,46817,0
JsValues.IncludesIffOccurs (correctness),Passed,00:00:00.0544151,102156,0
JsValues.NumberField (well-formedness),Passed,00:00:00.0520921,43099,0
JsValues.JoinFrom (well-formedness),Passed,00:00:00.0520453,42234,0
JsValues.ToStr (well-formedness),Passed,00:00:00.0442561,40864,0
JsValues.ParseNumber (well-formedness),Passed,00:00:00.0362619,39505,0
JsValues.DigitValue (correctness),Passed,00:00:00.0325245,45194,0
JsValues.AllDigits (well-formedness),Passed,00:00:00.0300041,10589,0
JsValues.IntToStr (well-formedness),Passed,00:00:00.0256653,13912,0
JsValues.NatToStrDigits (well-formedness),Passed,00:00:00.0233504,19201,0
JsValues.NatToStr (well-formedness),Passed,00:00:00.0211583,15140,0
JsValues.DigitsValue (well-formedness),Passed,00:00:00.0210213,18188,0
JsValues.Includes (well-formedness),Passed,00:00:00.0204624,12939,0
JsValues.DigitValue (well-formedness),Passed,00:00:00.0199905,7949,0
JsValues.OccursAt (well-formedness),Passed,00:00:00.0170177,10325,0

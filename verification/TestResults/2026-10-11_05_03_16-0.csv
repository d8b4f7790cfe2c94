TestResult.DisplayName,TestResult.Outcome,TestResult.Duration,TestResult.ResourceCount,RandomSeed
ClientExamples.IdentifierPrepared (correctness),Passed,00:00:00.9186761,2116924,0
ClientExamples.FalsyIdentifierDropped (correctness),Passed,00:00:00.5293658,1078812,0
ClientExamples.SharedAnchorSteps (correctness),Passed,00:00:00.4773531,1091620,0
ClientExamples.CanonicalVerbs (correctness),Passed,00:00:00.4542467,904475,0
PythonClient.ConstructRequest (correctness),Passed,00:00:00.2999630,777365,0
PythonClient.SpliceAddsInsertedSegments (correctness),Passed,00:00:00.2717031,869292,0
PythonClient.CanonicalVerbRequest (correctness),Passed,00:00:00.2559005,376301,0
PythonClient.SpliceFailureNamesMissingAnchor (correctness),Passed,00:00:00.2512660,504035,0
PythonClient.DefaultGetRequest (correctness),Passed,00:00:00.2120260,542342,0
ClientExamples.PlainRequest (well-formedness),Passed,00:00:00.1971839,142530,0
ClientExamples.PlainRequest (correctness),Passed,00:00:00.1959492,204307,0
ClientExamples.AdditionalVerbKept (correctness),Passed,00:00:00.1875207,461389,0
ClientExamples.DataBecomesBody (correctness),Passed,00:00:00.1796768,385221,0
PythonClient.AdditionalVerbRequest (correctness),Passed,00:00:00.1780724,327855,0
ClientExamples.CanonicalVerb (correctness),Passed,00:00:00.1616132,369962,0
PythonClient.SpliceIdentifiers (well-formedness),Passed,00:00:00.1515498,136054,0
ClientExamples.ReadByDefault (correctness),Passed,00:00:00.1393385,255987,0
PythonClient.UrlShape (correctness),Passed,00:00:00.1252513,178573,0
ClientExamples.VerbOnlyPath (correctness),Passed,00:00:00.1209216,277981,0
PythonClient.SpliceStep (well-formedness),Passed,00:00:00.1185424,159842,0
PythonClient.AnchorErrors (well-formedness),Passed,00:00:00.1169935,167236,0
PythonClient.SpliceSucceedsWhenAnchorsPresent (correctness),Passed,00:00:00.1159115,281171,0
PyValues.AllDigits (well-formedness),Passed,00:00:00.1153183,10589,0
PyValues.DigitChar (well-formedness),Passed,00:00:00.1153042,9134,0
ClientExamples.IdentifierSpliced (correctness),Passed,00:00:00.1141673,204325,0
PythonClient.AnchorErrors (correctness),Passed,00:00:00.1095069,203198,0
PythonClient.CanonicalVerbRequest (well-formedness),Passed,00:00:00.1090519,140268,0
PythonClient.IdentifierSegments (correctness),Passed,00:00:00.1065821,144501,0
PythonClient.ParamsAndBody (well-formedness),Passed,00:00:00.1057302,136126,0
ClientExamples.SharedAnchorPrepared (correctness),Passed,00:00:00.1044386,206840,0
PythonClient.UrlShape (well-formedness),Passed,00:00:00.1029097,143258,0
PythonClient.ExtendAllConcat (correctness),Passed,00:00:00.1016395,392601,0
PythonClient.SpliceKeepsOrder (correctness),Passed,00:00:00.0968344,210703,0
PythonClient.ParamsAndBody (correctness),Passed,00:00:00.0965923,176605,0
ClientExamples.SharedAnchorReversesOrder (correctness),Passed,00:00:00.0912974,204402,0
ClientExamples.SpliceAtHead (correctness),Passed,00:00:00.0855760,226834,0
PyValues.IntToString (well-formedness),Passed,00:00:00.0843458,17078,0
PythonClient.PrepareRequest (well-formedness),Passed,00:00:00.0831169,112824,0
ClientExamples.CanonicalVerb (well-formedness),Passed,00:00:00.0795684,141971,0
PythonClient.AdditionalVerbRequest (well-formedness),Passed,00:00:00.0793570,145296,0
PythonClient.KeysHaveIndex (correctness),Passed,00:00:00.0753715,48801,0
ClientExamples.SharedAnchorSplice (correctness),Passed,00:00:00.0732275,175283,0
PythonClient.FalsyIdentifiersIgnored (correctness),Passed,00:00:00.0708167,129972,0
ClientExamples.SpliceSingle (correctness),Passed,00:00:00.0707036,107042,0
PythonClient.SpliceWithoutTruthyValues (correctness),Passed,00:00:00.0699610,126476,0
ClientExamples.SpliceSingle (well-formedness),Passed,00:00:00.0697877,83967,0
PythonClient.EmptyPathFails (correctness),Passed,00:00:00.0656640,135790,0
PythonClient.FalsyIdentifiersIgnored (well-formedness),Passed,00:00:00.0631669,116413,0
PythonClient.IdentifierSegments (well-formedness),Passed,00:00:00.0620737,122822,0
PythonClient.DefaultGetRequest (well-formedness),Passed,00:00:00.0610453,127439,0
Builtins.FirstIndex (well-formedness),Passed,00:00:00.0553075,30123,0
PythonClient.HeadKeyNotInTail (well-formedness),Passed,00:00:00.0550682,21947,0
PythonClient.InsertedIgnoresOtherKey (correctness),Passed,00:00:00.0533076,104897,0
PythonClient.SpliceFailureNamesMissingAnchor (well-formedness),Passed,00:00:00.0504801,88396,0
Builtins.FirstIndexPast (well-formedness),Passed,00:00:00.0468132,13518,0
PythonClient.LookupAfterRemoval (correctness),Passed,00:00:00.0466031,40478,0
PythonClient.SpliceAddsInsertedSegments (well-formedness),Passed,00:00:00.0439787,89428,0
PythonClient.SpliceKeepsOrder (well-formedness),Passed,00:00:00.0387237,85833,0
PyValues.IntToStringRoundTrip (correctness),Passed,00:00:00.0383731,128634,0
PyValues.DecimalRoundTrip (correctness),Passed,00:00:00.0373016,52320,0
Builtins.SplitJoin (correctness),Passed,00:00:00.0365551,75220,0
ClientExamples.ChainBuildsPath (correctness),Passed,00:00:00.0356147,48104,0
Builtins.InsertAt (well-formedness),Passed,00:00:00.0315734,58146,0
ClientExamples.UrlOfX21 (correctness),Passed,00:00:00.0307660,110671,0
ClientExamples.UrlOfDetails123 (correctness),Passed,00:00:00.0307431,92164,0
PyValues.NatToDecimal (well-formedness),Passed,00:00:00.0298554,40011,0
ClientExamples.SpliceAtHead (well-formedness),Passed,00:00:00.0291384,80835,0
PythonClient.ResolveMethod (well-formedness),Passed,00:00:00.0286877,65300,0
PythonClient.SubsequenceAfterInsert (correctness),Passed,00:00:00.0284564,75277,0
PythonClient.ResolvedPath (well-formedness),Passed,00:00:00.0284274,47221,0
PyValues.TruthyStrNonEmpty (correctness),Passed,00:00:00.0279489,45811,0
PythonClient.ExtendAll (well-formedness),Passed,00:00:00.0276395,50150,0
ClientExamples.StrOf123 (correctness),Passed,00:00:00.0263995,71528,0
PythonClient.InsertedSegments (well-formedness),Passed,00:00:00.0251525,61328,0
ClientExamples.Root (well-formedness),Passed,00:00:00.0239732,29936,0
PyValues.DigitValue (well-formedness),Passed,00:00:00.0231092,10854,0
PythonClient.Keys (well-formedness),Passed,00:00:00.0211904,25443,0
Builtins.FirstIndexPast (correctness),Passed,00:00:00.0209193,35390,0
Builtins.Split (well-formedness),Passed,00:00:00.0199256,24341,0
PythonClient.InsertKeepsMembers (correctness),Passed,00:00:00.0194886,42097,0
PythonClient.NewClient (well-formedness),Passed,00:00:00.0190416,44337,0
PyValues.DecimalValue (well-formedness),Passed,00:00:00.0179627,23224,0
PyValues.IntToStringRoundTrip (well-formedness),Passed,00:00:00.0178449,27249,0
PyValues.DecimalRoundTrip (well-formedness),Passed,00:00:00.0176677,21749,0
PythonClient.Extend (well-formedness),Passed,00:00:00.0168137,30764,0
Builtins.SplitJoin (well-formedness),Passed,00:00:00.0167504,19306,0
PyValues.DictItems (well-formedness),Passed,00:00:00.0164059,21766,0
PythonClient.NoTruthyIdentifier (well-formedness),Passed,00:00:00.0160806,35261,0
PythonClient.AnchorsPresent (well-formedness),Passed,00:00:00.0159821,37142,0
PythonClient.IsSubsequence (well-formedness),Passed,00:00:00.0140555,16543,0
PyValues.FalsyValues (correctness),Passed,00:00:00.0129014,21530,0
PythonClient.KeysHaveIndex (well-formedness),Passed,00:00:00.0127652,17600,0
PythonClient.HeadKeyNotInTail (correctness),Passed,00:00:00.0127173,29507,0
PyValues.ParseInt (well-formedness),Passed,00:00:00.0122938,20716,0
Builtins.Join (well-formedness),Passed,00:00:00.0119640,14098,0
Builtins.DictPop (well-formedness),Passed,00:00:00.0116588,16134,0
PythonClient.UniqueKeys (well-formedness),Passed,00:00:00.0097524,12892,0
PythonClient.SubsequenceAfterInsert (well-formedness),Passed,00:00:00.0090507,19647,0
PythonClient.InsertKeepsMembers (well-formedness),Passed,00:00:00.0090370,18671,0
PythonClient.SubsequenceOfItself (correctness),Passed,00:00:00.0080058,14213,0
